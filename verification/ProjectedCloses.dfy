/** The events the projection reports for a connection's end, and the order of all reported events. */
module ProjectedCloses {
  import opened Wrappers
  import opened Wire
  import opened BrokerJournal
  import opened JournalReading
  import opened ProjectedRecords
  import P = Projection
  import V = ProjectionTheorems

  // ---- Forced closes ---------------------------------------------------------------------

  function Closing(n: nat, t: Token, i: nat): P.Draft { P.Draft(n, P.CloseResource, Some(t), None, Some(P.ForcedClose), true, i) }

  function Closings(n: nat, tokens: seq<Token>): (r: seq<P.Draft>)
    ensures |r| == |tokens| && forall i :: 0 <= i < |r| ==> r[i] == Closing(n, tokens[i], i)
  {
    seq(|tokens|, i requires 0 <= i < |tokens| => Closing(n, tokens[i], i))
  }

  function KeyIn(profiles: map<Token, P.Profile>, t: Token): string
    requires t in profiles && profiles[t].resource.Some?
  {
    P.KeyOf(profiles[t])
  }

  /** The tokens are abandoned sessions, one for each of the keys. */
  ghost predicate OnePerKey(profiles: map<Token, P.Profile>, c: Connection, keys: set<string>, tokens: seq<Token>) {
    && (forall i :: 0 <= i < |tokens| ==>
          tokens[i] in profiles && P.Abandoned(profiles[tokens[i]], c) && KeyIn(profiles, tokens[i]) in keys)
    && (forall i, k :: 0 <= i < k < |tokens| ==> KeyIn(profiles, tokens[i]) != KeyIn(profiles, tokens[k]))
    && (forall key <- keys :: exists i :: 0 <= i < |tokens| && KeyIn(profiles, tokens[i]) == key)
  }

  /** The sweep has drafted one close for each key of the abandoned sessions it has passed. */
  ghost predicate SweptOnce(s: P.State, order: seq<Token>, c: Connection, n: nat, w: P.Sweep, tokens: seq<Token>) {
    && SweptTo(s.profiles, order, c, w) && w.drafts == s.drafts + Closings(n, tokens) && w.offset == |tokens|
    && OnePerKey(s.profiles, c, w.keys, tokens) && tokens == FirstIn(s.profiles, order, c)
    && (forall t <- order :: t in s.profiles && P.Abandoned(s.profiles[t], c) ==> KeyIn(s.profiles, t) in w.keys)
  }

  /** The first session of each key, in order. */
  function FirstIn(profiles: map<Token, P.Profile>, order: seq<Token>, c: Connection): (r: seq<Token>)
    ensures forall i :: 0 <= i < |r| ==> r[i] in profiles && P.Abandoned(profiles[r[i]], c)
  {
    if order == [] then []
    else
      var before, t := FirstIn(profiles, order[..|order| - 1], c), order[|order| - 1];
      if t in profiles && P.Abandoned(profiles[t], c)
         && forall i :: 0 <= i < |before| ==> KeyIn(profiles, before[i]) != KeyIn(profiles, t) then before + [t] else before
  }

  lemma FirstNext(profiles: map<Token, P.Profile>, init: seq<Token>, t: Token, c: Connection)
    ensures
      var before := FirstIn(profiles, init, c);
      FirstIn(profiles, init + [t], c)
        == if t in profiles && P.Abandoned(profiles[t], c)
              && forall i :: 0 <= i < |before| ==> KeyIn(profiles, before[i]) != KeyIn(profiles, t) then before + [t] else before
  {
    hide KeyIn;
    assert (init + [t])[..|init|] == init;
  }

  lemma OneMoreKey(profiles: map<Token, P.Profile>, c: Connection, keys: set<string>, tokens: seq<Token>, t: Token)
    requires OnePerKey(profiles, c, keys, tokens) && t in profiles && P.Abandoned(profiles[t], c) && KeyIn(profiles, t) !in keys
    ensures OnePerKey(profiles, c, keys + {KeyIn(profiles, t)}, tokens + [t])
  {
    hide KeyIn;
    var more := tokens + [t];
    forall key <- keys + {KeyIn(profiles, t)} ensures exists i :: 0 <= i < |more| && KeyIn(profiles, more[i]) == key {
      if key in keys {
        var i :| 0 <= i < |tokens| && KeyIn(profiles, tokens[i]) == key;
        assert more[i] == tokens[i];
      } else {
        assert more[|tokens|] == t;
      }
    }
  }

  /** What one more session does to the sweep. */
  lemma SweepShape(s: P.State, init: seq<Token>, t: Token, c: Connection, n: nat, w: P.Sweep)
    requires SweptTo(s.profiles, init, c, w)
    ensures
      var r, hit := P.SweepOne(w, t, c, n), t in w.profiles && P.Abandoned(w.profiles[t], c);
      && SweptTo(s.profiles, init + [t], c, r)
      && (hit ==> t in s.profiles && w.profiles[t] == s.profiles[t] && s.profiles[t].resource.Some?)
      && (!hit && t in s.profiles && P.Abandoned(s.profiles[t], c) ==> t in init)
      && r.drafts == w.drafts + (if hit && KeyIn(s.profiles, t) !in w.keys then [Closing(n, t, w.offset)] else [])
      && r.keys == w.keys + (if hit then {KeyIn(s.profiles, t)} else {})
      && r.offset == w.offset + (if hit && KeyIn(s.profiles, t) !in w.keys then 1 else 0)
  {
    hide P.KeyOf;
  }

  lemma {:induction false} SweepOnce(s: P.State, order: seq<Token>, c: Connection, n: nat) returns (tokens: seq<Token>)
    ensures SweptOnce(s, order, c, n, P.SweepAll(P.Sweep(s.profiles, {}, s.drafts, 0), order, c, n), tokens)
  {
    var w0 := P.Sweep(s.profiles, {}, s.drafts, 0);
    if order == [] {
      tokens := [];
      assert s.drafts + Closings(n, []) == s.drafts;
    } else {
      hide P.SweepAll, SweptOnce;
      var init, t := order[..|order| - 1], order[|order| - 1];
      assert order == init + [t];
      var before := SweepOnce(s, init, c, n);
      var w := P.SweepAll(w0, init, c, n);
      tokens := if t in w.profiles && P.Abandoned(w.profiles[t], c) && P.KeyOf(w.profiles[t]) !in w.keys then before + [t] else before;
      SweepsLast(w0, init, t, c, n);
      SweepMore(s, init, t, c, n, w, before, tokens);
    }
  }

  lemma SweepsLast(w: P.Sweep, init: seq<Token>, t: Token, c: Connection, n: nat)
    ensures P.SweepAll(w, init + [t], c, n) == P.SweepOne(P.SweepAll(w, init, c, n), t, c, n)
  {
    hide P.SweepOne;
    assert (init + [t])[..|init|] == init;
  }

  lemma KeysAreTheirs(profiles: map<Token, P.Profile>, c: Connection, keys: set<string>, tokens: seq<Token>)
    requires OnePerKey(profiles, c, keys, tokens)
    ensures forall t <- profiles :: P.Abandoned(profiles[t], c) ==>
      (KeyIn(profiles, t) in keys <==> exists i :: 0 <= i < |tokens| && KeyIn(profiles, tokens[i]) == KeyIn(profiles, t))
  {
    hide KeyIn;
  }

  lemma FirstStep(s: P.State, init: seq<Token>, t: Token, c: Connection, n: nat, w: P.Sweep, before: seq<Token>, tokens: seq<Token>)
    requires SweptOnce(s, init, c, n, w, before)
    requires tokens == if t in w.profiles && P.Abandoned(w.profiles[t], c) && P.KeyOf(w.profiles[t]) !in w.keys then before + [t] else before
    ensures tokens == FirstIn(s.profiles, init + [t], c)
  {
    hide P.SweepOne, P.Abandoned, SweptTo, OnePerKey, P.KeyOf, FirstIn, Closings;
    SweepShape(s, init, t, c, n, w);
    FirstNext(s.profiles, init, t, c);
    KeysAreTheirs(s.profiles, c, w.keys, before);
  }

  lemma SweepMore(s: P.State, init: seq<Token>, t: Token, c: Connection, n: nat, w: P.Sweep, before: seq<Token>, tokens: seq<Token>)
    requires SweptOnce(s, init, c, n, w, before)
    requires tokens == if t in w.profiles && P.Abandoned(w.profiles[t], c) && P.KeyOf(w.profiles[t]) !in w.keys then before + [t] else before
    ensures SweptOnce(s, init + [t], c, n, P.SweepOne(w, t, c, n), tokens)
  {
    hide P.SweepOne, P.Abandoned, SweptTo, OnePerKey, P.KeyOf, FirstIn;
    SweepShape(s, init, t, c, n, w);
    FirstStep(s, init, t, c, n, w, before, tokens);
    if tokens == before + [t] {
      assert Closings(n, tokens) == Closings(n, before) + [Closing(n, t, |before|)];
      OneMoreKey(s.profiles, c, w.keys, before, t);
    } else {
      var r := P.SweepOne(w, t, c, n);
      assert r.keys == w.keys;
    }
  }

  /** The sessions a connection's end reports: each one it leaves open, no two with one name, every name once. */
  ghost predicate ForcedList(h: seq<Event>, e: Event, tokens: seq<Token>) {
    && (forall i :: 0 <= i < |tokens| ==> Leaves(h, e, tokens[i]))
    && (forall i, k :: 0 <= i < k < |tokens| ==> Key(h, tokens[i]) != Key(h, tokens[k]))
    && (forall t :: Leaves(h, e, t) ==> exists i :: 0 <= i < |tokens| && Key(h, tokens[i]) == Key(h, t))
  }

  /** The order of the session dictionary is the order of first openings. */
  lemma {:induction false} FoldOrder(j: seq<Event>)
    requires P.Fold(j).Some?
    ensures P.Fold(j).value.order == Order(j)
  {
    if j != [] {
      hide P.Step, AllRead, CallsRead, LinesRead, SessionsRead;
      var h, e := j[..|j| - 1], j[|j| - 1];
      assert j == h + [e];
      FoldOrder(h);
      FoldReports(h);
      CallsOf(h, P.Fold(h).value);
      SessionsOf(h, P.Fold(h).value);
      OrderStep(h, e, P.Fold(h).value, P.Fold(j).value);
    }
  }

  lemma OrderStep(h: seq<Event>, e: Event, s: P.State, r: P.State)
    requires CallsRead(h, s) && SessionsRead(h, s) && P.Step(s, e, |h| + 1) == Some(r)
    ensures r.order == if Starts(e).Some? && Starts(e).value !in s.order then s.order + [Starts(e).value] else s.order
  {
    hide CallsRead, SessionRead, P.OnHook, P.OnResult, Starts, P.SweepAll;
    if e.RpcResult? && (e.operation == Clear(Open) || e.operation == Clear(OpenManager)) {
      StartShape(h, e, s, r);
      var t := Starts(e).value;
      assert SessionRead(h, s, t);
      OrderHolds(h, s, t);
    } else {
      NotStart(e);
      if e.RpcResult? {
        ResultOrder(h, e, s, r);
      } else if e.HookEvent? {
        HookOrder(s, e, |h| + 1, r);
      }
    }
  }

  lemma NotStart(e: Event)
    requires !(e.RpcResult? && (e.operation == Clear(Open) || e.operation == Clear(OpenManager)))
    ensures Starts(e).None?
  {
  }

  lemma ResultOrder(h: seq<Event>, e: Event, s: P.State, r: P.State)
    requires e.RpcResult? && P.OnResult(s, e, |h| + 1) == Some(r) && e.operation != Clear(Open) && e.operation != Clear(OpenManager)
    ensures r.order == s.order
  {
  }

  lemma HookOrder(s: P.State, e: Event, n: nat, r: P.State)
    requires e.HookEvent? && P.OnHook(s, e, n) == Some(r)
    ensures r.order == s.order
  {
  }

  lemma AbandonedIs(h: seq<Event>, s: P.State, t: Token, c: Connection)
    requires SessionRead(h, s, t)
    ensures Abandoned(h, t, c) <==> t in s.profiles && P.Abandoned(s.profiles[t], c)
    ensures t in s.profiles && s.profiles[t].resource.Some? ==> Key(h, t) == Some(KeyIn(s.profiles, t))
    ensures t in s.profiles ==> t in s.order
  {
    hide Owner, Key, Shut, Setting, P.KeyOf;
  }

  lemma {:induction false} FirstAgrees(h: seq<Event>, e: Event, s: P.State, order: seq<Token>)
    requires e.ConnectionClose?
    requires forall t :: Abandoned(h, t, e.connection) <==> t in s.profiles && P.Abandoned(s.profiles[t], e.connection)
    requires forall t <- s.profiles :: s.profiles[t].resource.Some? ==> Key(h, t) == Some(KeyIn(s.profiles, t))
    ensures FirstIn(s.profiles, order, e.connection) == FirstOfEach(h, e, order)
  {
    if order != [] {
      hide KeyIn, Key, P.Abandoned, Abandoned;
      FirstAgrees(h, e, s, order[..|order| - 1]);
      AbandonedNamed(s, e.connection);
      var before, t := FirstIn(s.profiles, order[..|order| - 1], e.connection), order[|order| - 1];
      if t in s.profiles && P.Abandoned(s.profiles[t], e.connection) {
        forall i | 0 <= i < |before| ensures KeyIn(s.profiles, before[i]) == KeyIn(s.profiles, t) <==> Key(h, before[i]) == Key(h, t) {
        }
      }
    }
  }

  lemma EndForces(h: seq<Event>, e: Event, s: P.State) returns (tokens: seq<Token>)
    requires SessionsRead(h, s) && e.ConnectionClose?
    ensures ForcedList(h, e, tokens) && tokens == FirstOfEach(h, e, s.order)
    ensures P.OnDisconnect(s, e.connection, |h| + 1).drafts == s.drafts + Closings(|h| + 1, tokens)
  {
    hide SessionRead, Key, P.SweepAll, KeyIn, Abandoned, P.Abandoned, SweptTo;
    tokens := SweepOnce(s, s.order, e.connection, |h| + 1);
    forall t ensures Abandoned(h, t, e.connection) <==> t in s.profiles && P.Abandoned(s.profiles[t], e.connection)
      ensures t in s.profiles && s.profiles[t].resource.Some? ==> Key(h, t) == Some(KeyIn(s.profiles, t))
      ensures t in s.profiles ==> t in s.order
    {
      assert SessionRead(h, s, t);
      AbandonedIs(h, s, t, e.connection);
    }
    FirstAgrees(h, e, s, s.order);
    AbandonedNamed(s, e.connection);
    forall t | Leaves(h, e, t) ensures exists i :: 0 <= i < |tokens| && Key(h, tokens[i]) == Key(h, t) {
      var i :| 0 <= i < |tokens| && KeyIn(s.profiles, tokens[i]) == KeyIn(s.profiles, t);
      assert Key(h, tokens[i]) == Key(h, t);
    }
  }

  lemma AbandonedNamed(s: P.State, c: Connection)
    ensures forall t <- s.profiles :: P.Abandoned(s.profiles[t], c) ==> s.profiles[t].resource.Some?
  {
  }

  function Forced(n: nat, t: Token, i: nat): P.Evidence {
    P.Evidence(10 * n + i, P.CloseResource, Some(t), None, Some(P.ForcedClose), true)
  }

  /** The sessions record e, after h, reports as forced closed. */
  function ForcedBy(h: seq<Event>, e: Event): seq<Token> { if e.ConnectionClose? then FirstOfEach(h, e, Order(h)) else [] }

  /** x is the i-th forced close of record e. */
  ghost predicate ForcedAt(h: seq<Event>, e: Event, x: P.Evidence) {
    exists i :: 0 <= i < |ForcedBy(h, e)| && x == Forced(|h| + 1, ForcedBy(h, e)[i], i)
  }

  ghost predicate WasForced(j: seq<Event>, x: P.Evidence) { exists k :: 0 <= k < |j| && ForcedAt(j[..k], j[k], x) }

  lemma WasForcedNext(h: seq<Event>, e: Event, x: P.Evidence)
    ensures WasForced(h + [e], x) <==> WasForced(h, x) || ForcedAt(h, e, x)
  {
    hide ForcedAt;
    var j, n := h + [e], |h|;
    assert j[..n] == h && j[n] == e;
    assert forall k :: 0 <= k < n ==> j[..k] == h[..k] && j[k] == h[k];
    if WasForced(h, x) {
      var k :| 0 <= k < n && ForcedAt(h[..k], h[k], x);
      assert ForcedAt(j[..k], j[k], x);
    }
    if ForcedAt(h, e, x) {
      assert ForcedAt(j[..n], j[n], x);
    }
  }

  lemma ToldClosings(n: nat, tokens: seq<Token>, x: P.Evidence)
    ensures Told(Closings(n, tokens), x) <==> exists i :: 0 <= i < |tokens| && x == Forced(n, tokens[i], i)
  {
    var r := Closings(n, tokens);
    assert forall i :: 0 <= i < |r| ==> P.Materialize(r[i]) == Forced(n, tokens[i], i);
  }

  /** No event but a connection's end drafts a forced close. */
  lemma NoForced(h: seq<Event>, e: Event, s: P.State, r: P.State, x: P.Evidence)
    requires P.Step(s, e, |h| + 1) == Some(r) && !e.ConnectionClose? && ForcedClose(x)
    ensures Told(r.drafts, x) <==> Told(s.drafts, x)
  {
    hide P.OnHook, P.OnResult, Told;
    var more: seq<P.Draft>;
    if e.HookEvent? {
      more := HookForcesNone(s, e, |h| + 1, r);
    } else if e.RpcResult? {
      more := ResultForcesNone(s, e, |h| + 1, r);
    } else {
      more := r.drafts[|s.drafts|..];
      assert r.drafts == s.drafts + more;
    }
    ToldMore(s.drafts, more, x);
    NotToldForced(more, x);
  }

  lemma NotToldForced(more: seq<P.Draft>, x: P.Evidence)
    requires ForcedClose(x) && forall k :: 0 <= k < |more| ==> !ForcedClose(P.Materialize(more[k]))
    ensures !Told(more, x)
  {
  }

  lemma HookForcesNone(s: P.State, e: Event, n: nat, r: P.State) returns (more: seq<P.Draft>)
    requires e.HookEvent? && P.OnHook(s, e, n) == Some(r)
    ensures r.drafts == s.drafts + more && forall k :: 0 <= k < |more| ==> !ForcedClose(P.Materialize(more[k]))
  {
    hide P.Attributable;
    more := r.drafts[|s.drafts|..];
    assert r.drafts == s.drafts + more;
  }

  lemma ResultForcesNone(s: P.State, e: Event, n: nat, r: P.State) returns (more: seq<P.Draft>)
    requires e.RpcResult? && P.OnResult(s, e, n) == Some(r)
    ensures r.drafts == s.drafts + more && forall k :: 0 <= k < |more| ==> !ForcedClose(P.Materialize(more[k]))
  {
    more := r.drafts[|s.drafts|..];
    assert r.drafts == s.drafts + more;
  }

  lemma {:induction false} FoldForces(j: seq<Event>)
    requires P.Fold(j).Some?
    ensures forall x :: ForcedClose(x) ==> (Told(P.Fold(j).value.drafts, x) <==> WasForced(j, x))
  {
    if j == [] {
      assert forall x :: !Told([], x);
    } else {
      hide P.OnDisconnect, Told, ForcedClose, WasForced, ForcedList, AllRead, CallsRead, LinesRead, SessionsRead, P.Step;
      var h, e := j[..|j| - 1], j[|j| - 1];
      assert j == h + [e];
      FoldForces(h);
      FoldReports(h);
      FoldOrder(h);
      var s, r := P.Fold(h).value, P.Fold(j).value;
      SessionsOf(h, s);
      var tokens := ForcedBy(h, e);
      if e.ConnectionClose? {
        tokens := EndForces(h, e, s);
        StepIsEnd(s, e, |h| + 1);
      }
      StepForces(h, e, s, r, tokens);
      forall x | ForcedClose(x) ensures Told(r.drafts, x) <==> WasForced(j, x) {
        WasForcedNext(h, e, x);
      }
    }
  }

  lemma StepIsEnd(s: P.State, e: Event, n: nat)
    requires e.ConnectionClose?
    ensures P.Step(s, e, n) == Some(P.OnDisconnect(s, e.connection, n))
  {
  }

  lemma SessionsOf(j: seq<Event>, s: P.State)
    requires AllRead(j, s)
    ensures SessionsRead(j, s)
  {
  }

  lemma StepForces(h: seq<Event>, e: Event, s: P.State, r: P.State, tokens: seq<Token>)
    requires P.Step(s, e, |h| + 1) == Some(r)
    requires if e.ConnectionClose? then r.drafts == s.drafts + Closings(|h| + 1, tokens) else tokens == []
    ensures forall x :: ForcedClose(x) ==>
      (Told(r.drafts, x) <==> Told(s.drafts, x) || exists i :: 0 <= i < |tokens| && x == Forced(|h| + 1, tokens[i], i))
  {
    hide P.Step, Told, ForcedClose, Closings;
    forall x | ForcedClose(x)
      ensures Told(r.drafts, x) <==> Told(s.drafts, x) || exists i :: 0 <= i < |tokens| && x == Forced(|h| + 1, tokens[i], i)
    {
      if e.ConnectionClose? {
        ToldMore(s.drafts, Closings(|h| + 1, tokens), x);
        ToldClosings(|h| + 1, tokens, x);
      } else {
        NoForced(h, e, s, r, x);
      }
    }
  }

  /** The forced closes of a projection: at each connection's end, in the order the sessions were first opened, the
      first of each name among those it leaves open, numbered in turn, and no others. */
  lemma ForcesExactly(j: seq<Event>, x: P.Evidence)
    requires j != [] && P.Project(j).Some? && ForcedClose(x)
    ensures x in P.Project(j).value <==> WasForced(j, x)
  {
    hide P.Sorted, WasForced, P.Materialize;
    FoldForces(j);
    V.SortedMembers(P.Fold(j).value.drafts, x);
  }

  /** So no abandoned session's name goes unreported, and none is reported twice for one connection's end. */
  lemma EveryNameForced(j: seq<Event>, k: nat)
    requires j != [] && P.Project(j).Some? && k < |j| && j[k].ConnectionClose?
    ensures ForcedList(j[..k], j[k], ForcedBy(j[..k], j[k]))
  {
    hide P.Step, P.Sorted, P.Colliding, AllRead, SessionsRead;
    FoldPrefix(j, k);
    FoldReports(j[..k]);
    FoldOrder(j[..k]);
    SessionsOf(j[..k], P.Fold(j[..k]).value);
    var tokens := EndForces(j[..k], j[k], P.Fold(j[..k]).value);
  }

  // ---- Order and number --------------------------------------------------------------------

  predicate Rising(xs: seq<P.Evidence>) { forall i, k :: 0 <= i < k < |xs| ==> xs[i].sequence < xs[k].sequence }

  lemma {:induction false} InsertedRises(x: P.Evidence, xs: seq<P.Evidence>)
    requires Rising(xs) && forall i :: 0 <= i < |xs| ==> xs[i].sequence != x.sequence
    ensures Rising(P.Inserted(x, xs)) && forall y :: y in P.Inserted(x, xs) <==> y == x || y in xs
  {
    if xs != [] && xs[0].sequence < x.sequence {
      InsertedRises(x, xs[1..]);
      var rest := P.Inserted(x, xs[1..]);
      forall i | 0 <= i < |rest| ensures xs[0].sequence < rest[i].sequence {
        assert rest[i] in rest;
      }
      assert xs == [xs[0]] + xs[1..];
    }
  }

  lemma {:induction false} SortedRises(drafts: seq<P.Draft>)
    requires !P.Colliding(drafts)
    ensures Rising(P.Sorted(drafts))
  {
    if drafts != [] {
      hide P.Materialize, P.Inserted;
      var n := |drafts| - 1;
      var init := drafts[..n];
      FewerCollide(drafts);
      SortedRises(init);
      forall i | 0 <= i < |P.Sorted(init)| ensures P.Sorted(init)[i].sequence != P.Materialize(drafts[n]).sequence {
        V.SortedMembers(init, P.Sorted(init)[i]);
        var k :| 0 <= k < |init| && P.Materialize(init[k]) == P.Sorted(init)[i];
        assert init[k] == drafts[k];
      }
      InsertedRises(P.Materialize(drafts[n]), P.Sorted(init));
    }
  }

  lemma FewerCollide(drafts: seq<P.Draft>)
    requires !P.Colliding(drafts) && drafts != []
    ensures !P.Colliding(drafts[..|drafts| - 1])
  {
    hide P.Materialize;
    var init := drafts[..|drafts| - 1];
    forall i, k | 0 <= i < k < |init| ensures P.Materialize(init[i]).sequence != P.Materialize(init[k]).sequence {
      assert P.Materialize(drafts[i]).sequence != P.Materialize(drafts[k]).sequence;
    }
  }

  /** The reported events rise strictly in their numbers, so each is reported once. */
  lemma ProjectionRises(j: seq<Event>)
    requires j != [] && P.Project(j).Some?
    ensures Rising(P.Project(j).value)
  {
    hide P.Fold, P.Sorted, P.Colliding;
    SortedRises(P.Fold(j).value.drafts);
  }

  lemma {:induction false} FoldPrefix(j: seq<Event>, n: nat)
    requires P.Fold(j).Some? && n <= |j|
    ensures P.Fold(j[..n]).Some?
  {
    if n < |j| {
      hide P.Step;
      FoldPrefix(j[..|j| - 1], n);
      assert j[..|j| - 1][..n] == j[..n];
    } else {
      assert j[..n] == j;
    }
  }

  lemma FoldOne(j: seq<Event>, n: nat)
    requires P.Fold(j).Some? && n < |j|
    ensures P.Fold(j[..n]).Some? && P.Step(P.Fold(j[..n]).value, j[n], n + 1).Some?
  {
    hide P.Step;
    FoldPrefix(j, n);
    FoldPrefix(j, n + 1);
    assert j[..n + 1][..n] == j[..n];
  }

  /** Every hook that ends is reported as one write: of the session whose hook it is, with the bytes last asked to
      be written there, good exactly when the hook came to its normal end. */
  lemma WritesAreReported(j: seq<Event>, n: nat)
    requires j != [] && P.Project(j).Some? && n < |j| && j[n].HookEvent? && j[n].hook != Before
    ensures
      var t := Running(j[..n]);
      && t.Some? && LastWrite(j[..n], t.value).Some?
      && P.Evidence(10 * (n + 1), P.WriteCommand, t, Some(LastWrite(j[..n], t.value).value.payload), None, j[n].hook == After)
         in P.Project(j).value
  {
    hide P.Step, P.Sorted, Becomes, AllRead, Running, LastWrite, P.Colliding, CallsRead, LinesRead, SessionsRead;
    FoldOne(j, n);
    FoldReports(j[..n]);
    var s := P.Fold(j[..n]).value;
    CallsOf(j[..n], s);
    V.StepIsHook(s, j[n], n + 1);
    HookEnd(j[..n], j[n], s, P.OnHook(s, j[n], n + 1).value);
    var t := Running(j[..n]);
    var x := P.Evidence(10 * (n + 1), P.WriteCommand, t, Some(LastWrite(j[..n], t.value).value.payload), None, j[n].hook == After);
    BecomesWrite(j[..n], j[n]);
    assert Reported(j, x);
    ProjectsExactly(j, x);
  }

  lemma CallsOf(j: seq<Event>, s: P.State)
    requires AllRead(j, s)
    ensures CallsRead(j, s)
  {
  }

  lemma BecomesWrite(h: seq<Event>, e: Event)
    requires e.HookEvent? && e.hook != Before && Running(h).Some? && LastWrite(h, Running(h).value).Some?
    ensures
      var sent := LastWrite(h, Running(h).value).value;
      Becomes(h, e, P.Evidence(10 * (|h| + 1), P.WriteCommand, Running(h), Some(sent.payload), None, e.hook == After))
  {
    hide Running, LastWrite;
  }
}
