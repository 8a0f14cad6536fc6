/** Every command the projection reports was asked for: each projected write carries the bytes of an earlier write
    request for the same session, between a hook's start and its end. */
module ProjectedWrites {
  import opened Wrappers
  import opened Wire
  import opened BrokerJournal
  import opened Projection
  import V = ProjectionTheorems

  /** Record number `raw` (from one) is a write request for session t with these bytes. */
  predicate Asked(j: seq<Event>, raw: nat, t: Token, payload: seq<Byte>) {
    && 1 <= raw <= |j| && j[raw - 1].RpcRequest? && j[raw - 1].operation == Clear(Write)
    && SessionOf(j[raw - 1].arguments) == Some(t)
    && Argument(j[raw - 1].arguments, "data") == Some(WBytes(payload))
  }

  predicate Began(j: seq<Event>, t: Token, before: nat) {
    exists i :: 0 <= i < before <= |j| && j[i].HookEvent? && j[i].hook == Before && j[i].token == t
  }

  /** A projected write: the hook record it came from ended as it says, and a request asked for its bytes. */
  ghost predicate Genuine(j: seq<Event>, d: Draft) {
    && d.token.Some? && d.request.Some? && 1 <= d.raw <= |j|
    && j[d.raw - 1].HookEvent? && (if d.ok then j[d.raw - 1].hook == After else j[d.raw - 1].hook == Error)
    && Began(j, d.token.value, d.raw - 1)
    && exists raw: nat :: raw < d.raw && Asked(j, raw, d.token.value, d.request.value)
  }

  ghost predicate WritesOk(j: seq<Event>, s: State) {
    && (forall t <- s.writes :: Asked(j, s.writes[t].raw, t, s.writes[t].payload))
    && (s.active.Some? ==> Began(j, s.active.value, |j|))
    && (forall i :: 0 <= i < |s.drafts| && s.drafts[i].operation == WriteCommand ==> Genuine(j, s.drafts[i]))
  }

  /** What is true of a journal stays true of a longer one. */
  lemma GenuineStays(j: seq<Event>, e: Event, d: Draft)
    requires Genuine(j, d)
    ensures Genuine(j + [e], d)
  {
    var raw: nat :| raw < d.raw && Asked(j, raw, d.token.value, d.request.value);
    assert Asked(j + [e], raw, d.token.value, d.request.value);
    var i :| 0 <= i < d.raw - 1 <= |j| && j[i].HookEvent? && j[i].hook == Before && j[i].token == d.token.value;
    assert (j + [e])[i] == j[i];
  }

  lemma BeganStays(j: seq<Event>, e: Event, t: Token, n: nat)
    requires Began(j, t, n)
    ensures Began(j + [e], t, n)
  {
    var i :| 0 <= i < n <= |j| && j[i].HookEvent? && j[i].hook == Before && j[i].token == t;
    assert (j + [e])[i] == j[i];
  }

  ghost predicate NoNewWrites(before: seq<Draft>, after: seq<Draft>) {
    forall i :: 0 <= i < |after| && after[i].operation == WriteCommand ==> after[i] in before
  }

  lemma NoWriteAdded(before: seq<Draft>, after: seq<Draft>, d: Draft)
    requires NoNewWrites(before, after) && d.operation != WriteCommand
    ensures NoNewWrites(before, after + [d])
  {
  }

  lemma SameDrafts(drafts: seq<Draft>)
    ensures NoNewWrites(drafts, drafts)
  {
  }

  /** A step that adds no write and forgets or keeps what was sent. */
  lemma QuietStep(j: seq<Event>, e: Event, s: State, r: State)
    requires WritesOk(j, s) && r.active == s.active
    requires forall t <- r.writes :: t in s.writes && r.writes[t] == s.writes[t]
    requires NoNewWrites(s.drafts, r.drafts)
    ensures WritesOk(j + [e], r)
  {
    hide Genuine, Began;
    forall i | 0 <= i < |r.drafts| && r.drafts[i].operation == WriteCommand ensures Genuine(j + [e], r.drafts[i]) {
      var k :| 0 <= k < |s.drafts| && s.drafts[k] == r.drafts[i];
      GenuineStays(j, e, s.drafts[k]);
    }
    if s.active.Some? {
      BeganStays(j, e, s.active.value, |j|);
      BeganLater(j + [e], s.active.value, |j|);
    }
  }

  lemma BeganLater(j: seq<Event>, t: Token, n: nat)
    requires Began(j, t, n)
    ensures Began(j, t, |j|)
  {
  }

  lemma RequestStep(j: seq<Event>, e: Event, s: State)
    requires WritesOk(j, s) && e.RpcRequest?
    ensures WritesOk(j + [e], OnRequest(s, e, |j| + 1))
  {
    hide Genuine, Began;
    var r := OnRequest(s, e, |j| + 1);
    forall i | 0 <= i < |r.drafts| && r.drafts[i].operation == WriteCommand ensures Genuine(j + [e], r.drafts[i]) {
      GenuineStays(j, e, s.drafts[i]);
    }
    if s.active.Some? {
      BeganStays(j, e, s.active.value, |j|);
      BeganLater(j + [e], s.active.value, |j|);
    }
  }

  lemma HookStartStep(j: seq<Event>, e: Event, s: State)
    requires WritesOk(j, s) && e.HookEvent? && e.hook == Before && OnHook(s, e, |j| + 1).Some?
    ensures WritesOk(j + [e], OnHook(s, e, |j| + 1).value)
  {
    hide Genuine;
    var r := OnHook(s, e, |j| + 1).value;
    forall i | 0 <= i < |r.drafts| && r.drafts[i].operation == WriteCommand ensures Genuine(j + [e], r.drafts[i]) {
      GenuineStays(j, e, s.drafts[i]);
    }
    assert (j + [e])[|j|] == e;
  }

  lemma AskedStays(j: seq<Event>, e: Event, raw: nat, t: Token, payload: seq<Byte>)
    requires Asked(j, raw, t, payload)
    ensures Asked(j + [e], raw, t, payload)
  {
  }

  lemma EndIsGenuine(j: seq<Event>, e: Event, d: Draft, raw: nat)
    requires e.HookEvent? && e.hook != Before && d.ok == (e.hook == After) && d.raw == |j| + 1
    requires d.token.Some? && d.request.Some? && Asked(j, raw, d.token.value, d.request.value) && Began(j, d.token.value, |j|)
    ensures Genuine(j + [e], d)
  {
    hide Asked, Began;
    AskedBefore(j, raw, d.token.value, d.request.value);
    AskedStays(j, e, raw, d.token.value, d.request.value);
    BeganStays(j, e, d.token.value, |j|);
    assert (j + [e])[|j|] == e;
  }

  lemma AskedBefore(j: seq<Event>, raw: nat, t: Token, payload: seq<Byte>)
    requires Asked(j, raw, t, payload)
    ensures raw <= |j|
  {
  }

  lemma HookEndStep(j: seq<Event>, e: Event, s: State)
    requires WritesOk(j, s) && e.HookEvent? && e.hook != Before && OnHook(s, e, |j| + 1).Some?
    ensures WritesOk(j + [e], OnHook(s, e, |j| + 1).value)
  {
    hide Genuine, Asked, Began, Attributable;
    var r, t, k := OnHook(s, e, |j| + 1).value, s.active.value, j + [e];
    var sent := s.writes[t];
    var last := r.drafts[|r.drafts| - 1];
    EndIsGenuine(j, e, last, sent.raw);
    forall x <- r.writes ensures Asked(k, r.writes[x].raw, x, r.writes[x].payload) {
      AskedStays(j, e, r.writes[x].raw, x, r.writes[x].payload);
    }
    forall i | 0 <= i < |r.drafts| && r.drafts[i].operation == WriteCommand ensures Genuine(k, r.drafts[i]) {
      if i < |s.drafts| {
        GenuineStays(j, e, s.drafts[i]);
      } else {
        assert r.drafts[i] == last;
      }
    }
  }

  lemma {:induction false} SweepWrites(w: Sweep, order: seq<Token>, c: Connection, n: nat)
    ensures NoNewWrites(w.drafts, SweepAll(w, order, c, n).drafts)
  {
    hide NoNewWrites;
    if order == [] {
      SameDrafts(w.drafts);
    } else {
      SweepWrites(w, order[..|order| - 1], c, n);
      var before, after := SweepAll(w, order[..|order| - 1], c, n), SweepAll(w, order, c, n);
      if after.drafts != before.drafts {
        NoWriteAdded(w.drafts, before.drafts, after.drafts[|after.drafts| - 1]);
      }
    }
  }

  /** The other events draft no write and send nothing. */
  lemma OtherDrafts(s: State, e: Event, n: nat)
    requires !e.RpcRequest? && !e.HookEvent? && !e.ConnectionClose? && Step(s, e, n).Some?
    ensures
      var r := Step(s, e, n).value;
      && r.active == s.active && (forall t <- r.writes :: t in s.writes && r.writes[t] == s.writes[t])
      && (r.drafts == s.drafts
          || (|r.drafts| == |s.drafts| + 1 && r.drafts[..|s.drafts|] == s.drafts && r.drafts[|s.drafts|].operation != WriteCommand))
  {
    hide Materialize;
  }

  lemma OtherStep(j: seq<Event>, e: Event, s: State)
    requires WritesOk(j, s) && !e.RpcRequest? && !e.HookEvent? && Step(s, e, |j| + 1).Some?
    ensures WritesOk(j + [e], Step(s, e, |j| + 1).value)
  {
    hide WritesOk, SweepAll, NoNewWrites;
    var r := Step(s, e, |j| + 1).value;
    if e.ConnectionClose? {
      SweepWrites(Sweep(s.profiles, {}, s.drafts, 0), s.order, e.connection, |j| + 1);
    } else {
      hide Step;
      OtherDrafts(s, e, |j| + 1);
      SameDrafts(s.drafts);
      if r.drafts != s.drafts {
        NoWriteAdded(s.drafts, s.drafts, r.drafts[|s.drafts|]);
        assert r.drafts == s.drafts + [r.drafts[|s.drafts|]];
      }
    }
    QuietStep(j, e, s, r);
  }

  lemma {:induction false} FoldWrites(j: seq<Event>)
    requires Fold(j).Some?
    ensures WritesOk(j, Fold(j).value)
  {
    if j != [] {
      hide Step, WritesOk;
      var init, e := j[..|j| - 1], j[|j| - 1];
      assert j == init + [e];
      FoldWrites(init);
      var s := Fold(init).value;
      if e.RpcRequest? {
        StepIsRequest(s, e, |j|);
        RequestStep(init, e, s);
      } else if e.HookEvent? {
        V.StepIsHook(s, e, |j|);
        if e.hook == Before { HookStartStep(init, e, s); } else { HookEndStep(init, e, s); }
      } else {
        OtherStep(init, e, s);
      }
    }
  }

  lemma StepIsRequest(s: State, e: Event, n: nat)
    requires e.RpcRequest?
    ensures Step(s, e, n) == Some(OnRequest(s, e, n))
  {
  }

  /** In every projection of any journal, each write reported for a session carries exactly the bytes of a write
      request for that session recorded before it. */
  lemma WritesWereRequested(j: seq<Event>, e: Evidence)
    requires j != [] && Project(j).Some? && e in Project(j).value && e.operation == WriteCommand
    ensures e.token.Some? && e.request.Some? && exists raw: nat :: 10 * raw < e.sequence && Asked(j, raw, e.token.value, e.request.value)
  {
    hide Fold, Sorted, Asked, Began;
    FoldWrites(j);
    var drafts := Fold(j).value.drafts;
    V.SortedMembers(drafts, e);
    var i :| 0 <= i < |drafts| && Materialize(drafts[i]) == e;
    assert Genuine(j, drafts[i]);
    var raw: nat :| raw < drafts[i].raw && Asked(j, raw, e.token.value, e.request.value);
  }
}
