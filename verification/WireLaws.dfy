/** Which JSON values decode at all: the shape of the wire values, apart from depth and budget (protocol.py). */
module WireLaws {
  import opened Wrappers
  import opened Wire

  /** j is how the wire writes v. */
  predicate Writes(base: Base64, j: Json, v: WireValue)
    decreases j, 1
  {
    match v
    case WNone => j == JNull
    case WBool(flag) => j == JBool(flag)
    case WInt(number) => j == JInt(number)
    case WFloat(x) => j == JFloat(x)
    case WStr(text) => j == JStr(text)
    case WBytes(bytes) =>
      && j.JObject? && j.entries.Keys == {"type", "base64"} && j.entries["type"] == JStr("bytes")
      && j.entries["base64"].JStr? && base.decode(j.entries["base64"].text) == Some(bytes)
    case WTuple(items) =>
      && j.JObject? && j.entries.Keys == {"type", "items"} && j.entries["type"] == JStr("list")
      && j.entries["items"].JList? && WritesAll(base, j.entries["items"].elements, items)
  }

  predicate WritesAll(base: Base64, js: seq<Json>, vs: seq<WireValue>)
    decreases js, 0
  {
    |js| == |vs| && (js == [] || (Writes(base, js[0], vs[0]) && WritesAll(base, js[1..], vs[1..])))
  }

  function Fits(v: WireValue, depth: nat, budget: int): Decoded<WireValue> {
    if depth + Depth(v) <= MAX_WIRE_DEPTH && Nodes(v) <= budget then Ok(v, budget - Nodes(v)) else Bad
  }

  lemma ListWrites(base: Base64, j: Json, depth: nat, budget: int)
    requires depth <= MAX_WIRE_DEPTH && budget >= 1
    requires j.JObject? && "type" in j.entries && j.entries["type"] == JStr("list")
    ensures
      var shaped := j.entries.Keys == {"type", "items"} && j.entries["items"].JList?;
      && (!shaped ==> Decode(base, j, depth, budget) == Bad)
      && (shaped ==>
            var r := DecodeAll(base, j.entries["items"].elements, depth + 1, budget - 1);
            Decode(base, j, depth, budget) == if r.Bad? then Bad else Ok(WTuple(r.value), r.left))
  {
    hide DecodeAll;
    assert "list"[0] != "bytes"[0];
  }

  lemma BytesWrite(base: Base64, j: Json, depth: nat, budget: int)
    requires depth <= MAX_WIRE_DEPTH && budget >= 1
    requires j.JObject? && "type" in j.entries && j.entries["type"] == JStr("bytes")
    ensures
      var shaped := j.entries.Keys == {"type", "base64"} && j.entries["base64"].JStr?;
      Decode(base, j, depth, budget)
        == if shaped && base.decode(j.entries["base64"].text).Some?
           then Ok(WBytes(base.decode(j.entries["base64"].text).value), budget - 1) else Bad
  {
    hide DecodeAll;
  }

  lemma OtherWrite(base: Base64, j: Json, depth: nat, budget: int)
    requires depth <= MAX_WIRE_DEPTH && budget >= 1
    requires !(j.JObject? && "type" in j.entries && (j.entries["type"] == JStr("bytes") || j.entries["type"] == JStr("list")))
    ensures Decode(base, j, depth, budget) ==
      match j
      case JNull => Ok(WNone, budget - 1)
      case JBool(flag) => Ok(WBool(flag), budget - 1)
      case JInt(number) => Ok(WInt(number), budget - 1)
      case JFloat(x) => Ok(WFloat(x), budget - 1)
      case JStr(text) => Ok(WStr(text), budget - 1)
      case _ => Bad
  {
  }

  predicate Tagged(j: Json, tag: string) { j.JObject? && "type" in j.entries && j.entries["type"] == JStr(tag) }

  lemma WritesTuple(base: Base64, j: Json, v: WireValue)
    requires Tagged(j, "list")
    ensures Writes(base, j, v) <==>
      v.WTuple? && j.entries.Keys == {"type", "items"} && j.entries["items"].JList?
      && WritesAll(base, j.entries["items"].elements, v.items)
  {
    hide WritesAll;
    assert "list"[0] != "bytes"[0];
  }

  lemma WritesBytes(base: Base64, j: Json, v: WireValue)
    requires Tagged(j, "bytes")
    ensures Writes(base, j, v) <==>
      v.WBytes? && j.entries.Keys == {"type", "base64"} && j.entries["base64"].JStr?
      && base.decode(j.entries["base64"].text) == Some(v.bytes)
  {
    hide WritesAll;
    assert "list"[0] != "bytes"[0];
  }

  lemma WritesPlain(base: Base64, j: Json, v: WireValue)
    requires !Tagged(j, "bytes") && !Tagged(j, "list")
    ensures Writes(base, j, v) <==>
      match j
      case JNull => v == WNone
      case JBool(flag) => v == WBool(flag)
      case JInt(number) => v == WInt(number)
      case JFloat(x) => v == WFloat(x)
      case JStr(text) => v == WStr(text)
      case _ => false
  {
    hide WritesAll;
  }

  /** Decoding yields a value exactly when it is written there, nested no deeper than the limit and no larger than the
      budget, and charges its size. */
  lemma {:induction false} DecodesIff(base: Base64, j: Json, v: WireValue, depth: nat, budget: int, left: int)
    ensures Decode(base, j, depth, budget) == Ok(v, left) <==> Writes(base, j, v) && Fits(v, depth, budget) == Ok(v, left)
    decreases j, 1
  {
    hide Decode, DecodeAll, Writes, WritesAll, DepthOf, NodesOf;
    SizeAtLeastOne(v);
    if depth > MAX_WIRE_DEPTH || budget < 1 {
      OutOfLimits(base, j, depth, budget);
    } else if Tagged(j, "list") {
      ListWrites(base, j, depth, budget);
      WritesTuple(base, j, v);
      if j.entries.Keys == {"type", "items"} && j.entries["items"].JList? && v.WTuple? {
        DecodesAllIff(base, j.entries["items"].elements, v.items, depth + 1, budget - 1, left);
        assert (v.items == [] ==> NodesOf(v.items) == 0);
      }
    } else if Tagged(j, "bytes") {
      BytesWrite(base, j, depth, budget);
      WritesBytes(base, j, v);
    } else {
      OtherWrite(base, j, depth, budget);
      WritesPlain(base, j, v);
    }
  }

  lemma SizeAtLeastOne(v: WireValue)
    ensures Nodes(v) >= 1 && (!v.WTuple? ==> Nodes(v) == 1 && Depth(v) == 0)
    ensures v.WTuple? && v.items == [] ==> NodesOf(v.items) == 0
    ensures v.WTuple? ==> Nodes(v) == 1 + NodesOf(v.items) && Depth(v) == (if v.items == [] then 0 else 1 + DepthOf(v.items))
  {
  }

  /** The first item and the others, of the values as of the texts. */
  lemma ItemsApart(base: Base64, j: Json, rest: seq<Json>, v: WireValue, others: seq<WireValue>)
    ensures WritesAll(base, [j] + rest, [v] + others) <==> Writes(base, j, v) && WritesAll(base, rest, others)
  {
    hide Writes, Depth, Nodes;
    assert ([j] + rest)[1..] == rest && ([v] + others)[1..] == others;
  }

  lemma FirstDecodes(base: Base64, j: Json, rest: seq<Json>, depth: nat, budget: int)
    ensures
      var first := Decode(base, j, depth, budget);
      DecodeAll(base, [j] + rest, depth, budget)
        == if first.Bad? then Bad
           else
             var more := DecodeAll(base, rest, depth, first.left);
             if more.Bad? then Bad else Ok([first.value] + more.value, more.left)
  {
    hide Decode;
    assert ([j] + rest)[1..] == rest;
  }

  lemma NoItems(base: Base64, depth: nat, budget: int)
    ensures DecodeAll(base, [], depth, budget) == Ok([], budget) && WritesAll(base, [], []) && NodesOf([]) == 0 && DepthOf([]) == 0
    ensures forall vs :: WritesAll(base, [], vs) ==> vs == []
    ensures forall js :: WritesAll(base, js, []) ==> js == []
  {
  }

  lemma SomeItems(base: Base64, js: seq<Json>, depth: nat, budget: int)
    ensures js != [] && DecodeAll(base, js, depth, budget).Ok? ==> DecodeAll(base, js, depth, budget).value != []
  {
    hide Decode;
  }

  ghost predicate ItemsFit(vs: seq<WireValue>, depth: nat, budget: int, left: int) {
    (vs == [] || (depth + DepthOf(vs) <= MAX_WIRE_DEPTH && NodesOf(vs) <= budget)) && left == budget - NodesOf(vs)
  }

  lemma {:induction false} DecodesAllIff(base: Base64, js: seq<Json>, vs: seq<WireValue>, depth: nat, budget: int, left: int)
    ensures DecodeAll(base, js, depth, budget) == Ok(vs, left) <==> WritesAll(base, js, vs) && ItemsFit(vs, depth, budget, left)
    decreases js, 0
  {
    NoItems(base, depth, budget);
    SomeItems(base, js, depth, budget);
    if js != [] && vs != [] {
      hide *;
      var j, rest, v, others := js[0], js[1..], vs[0], vs[1..];
      assert js == [j] + rest && vs == [v] + others;
      FirstDecodes(base, j, rest, depth, budget);
      ItemsApart(base, j, rest, v, others);
      var first := Decode(base, j, depth, budget);
      if first.Ok? {
        DecodesIff(base, j, first.value, depth, budget, first.left);
        DecodesAllIff(base, rest, others, depth, first.left, left);
        forall more: seq<WireValue> ensures [first.value] + more == vs <==> first.value == v && more == others {
          ConsIs(first.value, more, v, others);
        }
      }
      DecodesIff(base, j, v, depth, budget, budget - Nodes(v));
      SizeAtLeastOne(v);
      ItemsJoin(v, others, depth, budget, left);
      FitsIs(v, depth, budget);
    }
  }

  lemma ConsIs(a: WireValue, s: seq<WireValue>, b: WireValue, t: seq<WireValue>)
    ensures [a] + s == [b] + t <==> a == b && s == t
  {
    assert ([a] + s)[0] == a && ([b] + t)[0] == b && ([a] + s)[1..] == s && ([b] + t)[1..] == t;
  }

  lemma FitsIs(v: WireValue, depth: nat, budget: int)
    ensures Fits(v, depth, budget) == if depth + Depth(v) <= MAX_WIRE_DEPTH && Nodes(v) <= budget then Ok(v, budget - Nodes(v)) else Bad
  {
    hide Depth, Nodes;
  }

  /** A list fits when its first item does and the others fit what that leaves. */
  lemma ItemsJoin(v: WireValue, others: seq<WireValue>, depth: nat, budget: int, left: int)
    ensures ItemsFit([v] + others, depth, budget, left) <==>
      depth + Depth(v) <= MAX_WIRE_DEPTH && Nodes(v) <= budget && ItemsFit(others, depth, budget - Nodes(v), left)
  {
    hide Depth, Nodes, DepthOf, NodesOf;
    SizesApart(v, others);
    SizeAtLeastOne(v);
    NoSize();
  }

  lemma NoSize()
    ensures NodesOf([]) == 0 && DepthOf([]) == 0
  {
  }

  lemma SizesApart(v: WireValue, others: seq<WireValue>)
    ensures DepthOf([v] + others) == (if Depth(v) < DepthOf(others) then DepthOf(others) else Depth(v))
    ensures NodesOf([v] + others) == Nodes(v) + NodesOf(others)
  {
    hide Depth, Nodes;
    assert ([v] + others)[1..] == others;
  }
}
