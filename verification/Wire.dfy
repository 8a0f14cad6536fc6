/** The v2 wire value codec with its depth limit and shared node budget (protocol.py). */
module Wire {
  import opened Wrappers

  type Byte = b: int | 0 <= b < 256

  datatype WireValue =
    | WNone
    | WBool(flag: bool)
    | WInt(number: int)
    | WFloat(x: real)
    | WStr(text: string)
    | WBytes(bytes: seq<Byte>)
    | WTuple(items: seq<WireValue>)

  /** What json.loads yields. Objects keep their entries; duplicate keys never get this far. An infinite or
      undefined float and a string with a lone surrogate, which has no UTF-8 form, are their own cases. */
  datatype Json =
    | JNull
    | JBool(flag: bool)
    | JInt(number: int)
    | JFloat(x: real)
    | JNotFinite
    | JStr(text: string)
    | JNotUtf8
    | JList(elements: seq<Json>)
    | JObject(entries: map<string, Json>)

  /** base64.b64encode and base64.b64decode(validate=True), known only by their round trip. */
  datatype Base64 = Base64(encode: seq<Byte> -> string, decode: string -> Option<seq<Byte>>)
  {
    ghost predicate Inverts() { forall b: seq<Byte> :: decode(encode(b)) == Some(b) }
  }

  const MAX_WIRE_DEPTH := 16
  const MAX_WIRE_ITEMS := 4096

  // ---- Encoding --------------------------------------------------------------------------

  function Encode(base: Base64, v: WireValue): Json {
    match v
    case WNone => JNull
    case WBool(flag) => JBool(flag)
    case WInt(number) => JInt(number)
    case WFloat(x) => JFloat(x)
    case WStr(text) => JStr(text)
    case WBytes(bytes) => JObject(map["type" := JStr("bytes"), "base64" := JStr(base.encode(bytes))])
    case WTuple(items) => JObject(map["type" := JStr("list"), "items" := JList(EncodeAll(base, items))])
  }

  function EncodeAll(base: Base64, vs: seq<WireValue>): seq<Json> {
    if vs == [] then [] else [Encode(base, vs[0])] + EncodeAll(base, vs[1..])
  }

  /** Nesting below the outermost value. */
  function Depth(v: WireValue): nat {
    if v.WTuple? && v.items != [] then 1 + DepthOf(v.items) else 0
  }

  function DepthOf(vs: seq<WireValue>): nat {
    if vs == [] then 0
    else
      var first, rest := Depth(vs[0]), DepthOf(vs[1..]);
      if first < rest then rest else first
  }

  function Nodes(v: WireValue): nat { 1 + if v.WTuple? then NodesOf(v.items) else 0 }

  function NodesOf(vs: seq<WireValue>): nat {
    if vs == [] then 0 else Nodes(vs[0]) + NodesOf(vs[1..])
  }

  // ---- Decoding --------------------------------------------------------------------------

  /** A decoded value, or the ProtocolError, with what is left of the budget. */
  datatype Decoded<T> = Ok(value: T, left: int) | Bad

  function Decode(base: Base64, j: Json, depth: nat, budget: int): Decoded<WireValue>
    decreases j, 1
  {
    if depth > MAX_WIRE_DEPTH || budget - 1 < 0 then Bad
    else
      var left := budget - 1;
      match j
      case JNull => Ok(WNone, left)
      case JBool(flag) => Ok(WBool(flag), left)
      case JInt(number) => Ok(WInt(number), left)
      case JFloat(x) => Ok(WFloat(x), left)
      case JStr(text) => Ok(WStr(text), left)
      case JNotFinite => Bad
      case JNotUtf8 => Bad
      case JList(_) => Bad
      case JObject(entries) =>
        if "type" !in entries then Bad
        else if entries["type"] == JStr("bytes") then
          if entries.Keys != {"type", "base64"} || !entries["base64"].JStr? then Bad
          else
            var bytes := base.decode(entries["base64"].text);
            if bytes.None? then Bad else Ok(WBytes(bytes.value), left)
        else if entries["type"] == JStr("list") then
          if entries.Keys != {"type", "items"} || !entries["items"].JList? then Bad
          else
            var items := DecodeAll(base, entries["items"].elements, depth + 1, left);
            if items.Bad? then Bad else Ok(WTuple(items.value), items.left)
        else Bad
  }

  function DecodeAll(base: Base64, js: seq<Json>, depth: nat, budget: int): Decoded<seq<WireValue>>
    decreases js, 0
  {
    if js == [] then Ok([], budget)
    else
      var first := Decode(base, js[0], depth, budget);
      if first.Bad? then Bad
      else
        var rest := DecodeAll(base, js[1..], depth, first.left);
        if rest.Bad? then Bad else Ok([first.value] + rest.value, rest.left)
  }

  // ---- Round trip ------------------------------------------------------------------------

  lemma ListDecodes(base: Base64, items: seq<WireValue>, depth: nat, budget: int)
    requires depth <= MAX_WIRE_DEPTH && budget >= 1
    ensures
      var r := DecodeAll(base, EncodeAll(base, items), depth + 1, budget - 1);
      Decode(base, Encode(base, WTuple(items)), depth, budget) == if r.Bad? then Bad else Ok(WTuple(r.value), r.left)
  {
    hide DecodeAll, EncodeAll;
    var entries := Encode(base, WTuple(items)).entries;
    assert entries.Keys == {"type", "items"};
    assert entries["type"].text[0] == 'l';
  }

  lemma BytesDecode(base: Base64, bytes: seq<Byte>, depth: nat, budget: int)
    requires base.Inverts() && depth <= MAX_WIRE_DEPTH && budget >= 1
    ensures Decode(base, Encode(base, WBytes(bytes)), depth, budget) == Ok(WBytes(bytes), budget - 1)
  {
    hide DecodeAll, EncodeAll;
    assert Encode(base, WBytes(bytes)).entries.Keys == {"type", "base64"};
  }

  lemma PlainDecodes(base: Base64, v: WireValue, depth: nat, budget: int)
    requires !v.WTuple? && !v.WBytes? && depth <= MAX_WIRE_DEPTH && budget >= 1
    ensures Decode(base, Encode(base, v), depth, budget) == Ok(v, budget - 1)
  {
  }

  lemma OutOfLimits(base: Base64, j: Json, depth: nat, budget: int)
    requires depth > MAX_WIRE_DEPTH || budget < 1
    ensures Decode(base, j, depth, budget) == Bad
  {
  }

  /** Decoding an encoded value gives it back and charges its node count, exactly when its nesting stays
      within the depth limit and its nodes fit the budget. */
  lemma {:induction false} RoundTrip(base: Base64, v: WireValue, depth: nat, budget: int)
    requires base.Inverts()
    ensures Decode(base, Encode(base, v), depth, budget)
         == if depth + Depth(v) <= MAX_WIRE_DEPTH && Nodes(v) <= budget then Ok(v, budget - Nodes(v)) else Bad
    decreases v, 1
  {
    hide Encode, Decode, DecodeAll, EncodeAll, DepthOf, NodesOf;
    if depth > MAX_WIRE_DEPTH || budget < 1 {
      OutOfLimits(base, Encode(base, v), depth, budget);
    } else if v.WTuple? {
      ListDecodes(base, v.items, depth, budget);
      RoundTripAll(base, v.items, depth + 1, budget - 1);
    } else if v.WBytes? {
      BytesDecode(base, v.bytes, depth, budget);
    } else {
      PlainDecodes(base, v, depth, budget);
    }
  }

  /** The items after the first. */
  lemma ItemsDecode(base: Base64, v: WireValue, rest: seq<WireValue>, depth: nat, budget: int)
    ensures
      var first := Decode(base, Encode(base, v), depth, budget);
      DecodeAll(base, EncodeAll(base, [v] + rest), depth, budget)
        == if first.Bad? then Bad
           else
             var more := DecodeAll(base, EncodeAll(base, rest), depth, first.left);
             if more.Bad? then Bad else Ok([first.value] + more.value, more.left)
    ensures DepthOf([v] + rest) == (if Depth(v) < DepthOf(rest) then DepthOf(rest) else Depth(v))
    ensures NodesOf([v] + rest) == Nodes(v) + NodesOf(rest)
  {
    hide Encode, Decode, Depth, Nodes;
    assert ([v] + rest)[1..] == rest;
    var js := EncodeAll(base, [v] + rest);
    assert js[0] == Encode(base, v) && js[1..] == EncodeAll(base, rest);
  }

  lemma {:induction false} RoundTripAll(base: Base64, vs: seq<WireValue>, depth: nat, budget: nat)
    requires base.Inverts()
    ensures DecodeAll(base, EncodeAll(base, vs), depth, budget)
         == if (vs == [] || depth + DepthOf(vs) <= MAX_WIRE_DEPTH) && NodesOf(vs) <= budget
            then Ok(vs, budget - NodesOf(vs)) else Bad
    decreases vs, 0
  {
    if vs != [] {
      hide *;
      var v, rest := vs[0], vs[1..];
      assert vs == [v] + rest;
      ItemsDecode(base, v, rest, depth, budget);
      RoundTrip(base, v, depth, budget);
      if depth + Depth(v) <= MAX_WIRE_DEPTH && Nodes(v) <= budget {
        RoundTripAll(base, rest, depth, budget - Nodes(v));
        NoDepth(rest);
      }
    }
  }

  lemma NoDepth(vs: seq<WireValue>)
    ensures vs == [] ==> DepthOf(vs) == 0
  {
  }

  // ---- The decoder with its mutable budget -----------------------------------------------

  class Budget {
    var left: int

    constructor (limit: int)
      ensures left == limit
    {
      left := limit;
    }
  }

  /** decode_wire_value. A failed decode leaves the budget wherever it got to. */
  method DecodeWireValue(base: Base64, j: Json, depth: nat, budget: Budget) returns (r: Option<WireValue>)
    modifies budget
    ensures r.Some? <==> Decode(base, j, depth, old(budget.left)).Ok?
    ensures r.Some? ==> Decode(base, j, depth, old(budget.left)) == Ok(r.value, budget.left)
    decreases j, 1
  {
    if depth > MAX_WIRE_DEPTH {
      return None;
    }
    budget.left := budget.left - 1;
    if budget.left < 0 {
      return None;
    }
    match j
    case JNull => return Some(WNone);
    case JBool(flag) => return Some(WBool(flag));
    case JInt(number) => return Some(WInt(number));
    case JFloat(x) => return Some(WFloat(x));
    case JStr(text) => return Some(WStr(text));
    case JNotFinite => return None;
    case JNotUtf8 => return None;
    case JList(_) => return None;
    case JObject(entries) =>
      if "type" !in entries {
        return None;
      }
      if entries["type"] == JStr("bytes") {
        if entries.Keys != {"type", "base64"} || !entries["base64"].JStr? {
          return None;
        }
        var bytes := base.decode(entries["base64"].text);
        return if bytes.None? then None else Some(WBytes(bytes.value));
      }
      if entries["type"] == JStr("list") {
        if entries.Keys != {"type", "items"} || !entries["items"].JList? {
          return None;
        }
        var items := DecodeItems(base, entries["items"].elements, depth + 1, budget);
        return if items.None? then None else Some(WTuple(items.value));
      }
      return None;
  }

  /** The generator over the items of a list value. */
  method DecodeItems(base: Base64, js: seq<Json>, depth: nat, budget: Budget) returns (r: Option<seq<WireValue>>)
    modifies budget
    ensures r.Some? <==> DecodeAll(base, js, depth, old(budget.left)).Ok?
    ensures r.Some? ==> DecodeAll(base, js, depth, old(budget.left)) == Ok(r.value, budget.left)
    decreases js, 0
  {
    if js == [] {
      return Some([]);
    }
    var first := DecodeWireValue(base, js[0], depth, budget);
    if first.None? {
      return None;
    }
    var rest := DecodeItems(base, js[1..], depth, budget);
    return if rest.None? then None else Some([first.value] + rest.value);
  }

  // ---- Requests share one budget ---------------------------------------------------------

  function Charge(args: seq<(string, WireValue)>): nat {
    if args == [] then 0 else Charge(args[..|args| - 1]) + 1 + Nodes(args[|args| - 1].1)
  }

  function EncodeArgs(base: Base64, args: seq<(string, WireValue)>): (r: seq<(string, Json)>)
    ensures |r| == |args|
    ensures forall i :: 0 <= i < |args| ==> r[i] == (args[i].0, Encode(base, args[i].1))
  {
    seq(|args|, i requires 0 <= i < |args| => (args[i].0, Encode(base, args[i].1)))
  }

  type RawArguments = seq<(string, Json)>

  /** The argument loop of decode_request: one budget unit for each argument besides its nodes. */
  function DecodeArgs(base: Base64, raw: RawArguments, budget: int): Decoded<seq<(string, WireValue)>> {
    if raw == [] then Ok([], budget)
    else
      var init, (key, value) := DecodeArgs(base, raw[..|raw| - 1], budget), raw[|raw| - 1];
      if init.Bad? || init.left - 1 < 0 then Bad
      else
        var v := Decode(base, value, 0, init.left - 1);
        if v.Bad? then Bad else Ok(init.value + [(key, v.value)], v.left)
  }

  predicate Named(raw: RawArguments) { forall i :: 0 <= i < |raw| ==> raw[i].0 != "" }

  lemma {:induction false} BadStays(base: Base64, raw: RawArguments, n: nat, budget: int)
    requires n <= |raw| && DecodeArgs(base, raw[..n], budget).Bad?
    ensures DecodeArgs(base, raw, budget).Bad?
  {
    hide Decode;
    if n == |raw| {
      assert raw[..n] == raw;
    } else {
      var init := raw[..|raw| - 1];
      assert init[..n] == raw[..n];
      BadStays(base, init, n, budget);
    }
  }

  lemma ArgsNext(base: Base64, raw: RawArguments, i: nat, budget: int)
    requires i < |raw| && DecodeArgs(base, raw[..i], budget).Ok?
    ensures
      var init := DecodeArgs(base, raw[..i], budget);
      var v := Decode(base, raw[i].1, 0, init.left - 1);
      DecodeArgs(base, raw[..i + 1], budget)
        == if init.left - 1 < 0 || v.Bad? then Bad else Ok(init.value + [(raw[i].0, v.value)], v.left)
  {
    hide Decode;
    assert raw[..i + 1][..i] == raw[..i];
  }

  /** The arguments of decode_request, whatever the peer sent: every value shares one budget. */
  method DecodeArguments(base: Base64, raw: RawArguments) returns (r: Option<seq<(string, WireValue)>>)
    ensures r.Some? <==> Named(raw) && DecodeArgs(base, raw, MAX_WIRE_ITEMS).Ok?
    ensures r.Some? ==> r.value == DecodeArgs(base, raw, MAX_WIRE_ITEMS).value
  {
    hide Decode, DecodeArgs;
    if !Named(raw) {
      return None;
    }
    NoArgs(base);
    var budget := new Budget(MAX_WIRE_ITEMS);
    var decoded: seq<(string, WireValue)> := [];
    for i := 0 to |raw|
      invariant DecodeArgs(base, raw[..i], MAX_WIRE_ITEMS) == Ok(decoded, budget.left)
    {
      ArgsNext(base, raw, i, MAX_WIRE_ITEMS);
      budget.left := budget.left - 1;
      if budget.left < 0 {
        BadStays(base, raw, i + 1, MAX_WIRE_ITEMS);
        return None;
      }
      var value := DecodeWireValue(base, raw[i].1, 0, budget);
      if value.None? {
        BadStays(base, raw, i + 1, MAX_WIRE_ITEMS);
        return None;
      }
      decoded := decoded + [(raw[i].0, value.value)];
    }
    assert raw[..|raw|] == raw;
    return Some(decoded);
  }

  lemma NoArgs(base: Base64)
    ensures DecodeArgs(base, [], MAX_WIRE_ITEMS) == Ok([], MAX_WIRE_ITEMS)
  {
  }

  predicate Shallow(args: seq<(string, WireValue)>) { forall i :: 0 <= i < |args| ==> Depth(args[i].1) <= MAX_WIRE_DEPTH }

  lemma ArgsLast(base: Base64, init: seq<(string, WireValue)>, last: (string, WireValue), budget: int)
    ensures
      var before := DecodeArgs(base, EncodeArgs(base, init), budget);
      DecodeArgs(base, EncodeArgs(base, init + [last]), budget)
        == if before.Bad? || before.left - 1 < 0 then Bad
           else
             var v := Decode(base, Encode(base, last.1), 0, before.left - 1);
             if v.Bad? then Bad else Ok(before.value + [(last.0, v.value)], v.left)
    ensures Charge(init + [last]) == Charge(init) + 1 + Nodes(last.1)
  {
    hide Encode, Decode, Nodes;
    var n, raw := |init|, EncodeArgs(base, init + [last]);
    assert (init + [last])[..n] == init && raw[..n] == EncodeArgs(base, init) && raw[n] == (last.0, Encode(base, last.1));
  }

  /** What reading an encoded argument list should yield. */
  function ReadBack(args: seq<(string, WireValue)>, budget: int): Decoded<seq<(string, WireValue)>> {
    if Charge(args) <= budget && Shallow(args) then Ok(args, budget - Charge(args)) else Bad
  }

  lemma ArgumentsStep(base: Base64, init: seq<(string, WireValue)>, last: (string, WireValue), budget: nat)
    requires base.Inverts() && DecodeArgs(base, EncodeArgs(base, init), budget) == ReadBack(init, budget)
    ensures DecodeArgs(base, EncodeArgs(base, init + [last]), budget) == ReadBack(init + [last], budget)
  {
    hide Base64.Inverts, Encode, Decode, Depth, Nodes, Shallow, DecodeArgs, EncodeArgs, Charge;
    ArgsLast(base, init, last, budget);
    DepthsSplit(init, last);
    PositiveNodes(last.1);
    var left := budget - Charge(init);
    if Shallow(init) && left >= 1 {
      RoundTrip(base, last.1, 0, left - 1);
      assert (last.0, last.1) == last;
    }
  }

  /** An encoded argument list reads back exactly when the whole list fits the budget and each value the depth. */
  lemma {:induction false} ArgumentsRoundTrip(base: Base64, args: seq<(string, WireValue)>, budget: nat)
    requires base.Inverts()
    ensures DecodeArgs(base, EncodeArgs(base, args), budget) == ReadBack(args, budget)
  {
    if args != [] {
      hide *;
      var init, last := args[..|args| - 1], args[|args| - 1];
      assert args == init + [last];
      ArgumentsRoundTrip(base, init, budget);
      ArgumentsStep(base, init, last, budget);
    }
  }

  lemma PositiveNodes(v: WireValue)
    ensures Nodes(v) >= 1
  {
  }

  lemma DepthsSplit(init: seq<(string, WireValue)>, last: (string, WireValue))
    ensures Shallow(init + [last]) <==> Shallow(init) && Depth(last.1) <= MAX_WIRE_DEPTH
  {
    hide Depth;
    var args := init + [last];
    assert args[|init|] == last && forall i :: 0 <= i < |init| ==> init[i] == args[i];
  }
}
