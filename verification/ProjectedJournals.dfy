/** Which journals the projection can read, and which it refuses. */
module ProjectedJournals {
  import opened Wrappers
  import opened Wire
  import opened BrokerJournal
  import opened JournalReading
  import opened ProjectedRecords
  import P = Projection

  /** The pending writes are exactly those the journal leaves unwritten. */
  ghost predicate WritesRead(j: seq<Event>, s: P.State) {
    forall t :: (if t in s.writes then Some(s.writes[t]) else None) == Unwritten(j, t)
  }

  lemma NextUnwritten(h: seq<Event>, e: Event, t: Token)
    ensures Unwritten(h + [e], t) ==
      if WriteOf(e, t).Some? then Some(P.Sent(|h| + 1, WriteOf(e, t).value))
      else if (e.HookEvent? && e.hook != Before && Running(h) == Some(t)) || (e.RpcReject? && P.SessionOf(Answered(h, e)) == Some(t)) then None
      else Unwritten(h, t)
  {
    hide WriteOf, Running, Answered;
    assert (h + [e])[..|h|] == h;
  }

  lemma WritesStep(h: seq<Event>, e: Event, s: P.State, r: P.State)
    requires CallsRead(h, s) && WritesRead(h, s) && P.Step(s, e, |h| + 1) == Some(r)
    ensures WritesRead(h + [e], r)
  {
    hide Unwritten, CallsRead, Running, Answered, P.OnHook, P.OnResult, P.OnReject, P.OnRequest, P.OnDisconnect, WriteOf, WritesRead;
    forall t ensures (if t in r.writes then Some(r.writes[t]) else None) == Unwritten(h + [e], t) {
      NextUnwritten(h, e, t);
      WriteHere(h, s, t);
      NoWrite(e, t);
      if e.RpcRequest? {
        RequestWrites(s, e, |h| + 1, t);
      } else if e.HookEvent? {
        HookWrites(h, e, s, r);
      } else if e.RpcReject? {
        RejectWrites(h, e, s, t);
      } else if e.RpcResult? {
        ResultCalls(s, e, |h| + 1);
      } else {
        OtherWrites(s, e, |h| + 1, r);
      }
    }
    assert WritesRead(h + [e], r) by { Gather(h + [e], r); }
  }

  lemma Gather(j: seq<Event>, s: P.State)
    requires forall t :: (if t in s.writes then Some(s.writes[t]) else None) == Unwritten(j, t)
    ensures WritesRead(j, s)
  {
    hide Unwritten;
  }

  lemma WriteHere(j: seq<Event>, s: P.State, t: Token)
    requires WritesRead(j, s)
    ensures (if t in s.writes then Some(s.writes[t]) else None) == Unwritten(j, t)
  {
    hide Unwritten;
  }

  lemma NoWrite(e: Event, t: Token)
    ensures !e.RpcRequest? ==> WriteOf(e, t).None?
  {
  }

  lemma RequestWrites(s: P.State, e: Event, n: nat, t: Token)
    requires e.RpcRequest?
    ensures
      var r := P.OnRequest(s, e, n);
      if WriteOf(e, t).Some? then t in r.writes && r.writes[t] == P.Sent(n, WriteOf(e, t).value)
      else (t in r.writes <==> t in s.writes) && (t in s.writes ==> r.writes[t] == s.writes[t])
  {
  }

  lemma HookWrites(h: seq<Event>, e: Event, s: P.State, r: P.State)
    requires CallsRead(h, s) && e.HookEvent? && P.OnHook(s, e, |h| + 1) == Some(r)
    ensures r.writes == if e.hook == Before then s.writes else s.writes - {Running(h).value}
    ensures e.hook != Before ==> Running(h).Some?
  {
    hide Running, Pending, LastWrite;
  }

  lemma OtherWrites(s: P.State, e: Event, n: nat, r: P.State)
    requires !e.RpcRequest? && !e.HookEvent? && !e.RpcReject? && !e.RpcResult? && P.Step(s, e, n) == Some(r)
    ensures r.writes == s.writes
  {
    hide P.SweepAll;
  }

  lemma RejectWrites(h: seq<Event>, e: Event, s: P.State, t: Token)
    requires CallsRead(h, s) && e.RpcReject?
    ensures
      var r := P.OnReject(s, e, |h| + 1);
      if P.SessionOf(Answered(h, e)) == Some(t) then t !in r.writes
      else (t in r.writes <==> t in s.writes) && (t in s.writes ==> r.writes[t] == s.writes[t])
  {
    hide Running, Pending, LastWrite;
    assert (if e.connection in s.requests then Some(s.requests[e.connection]) else None) == Pending(h, e.connection);
    NoSessionInRedacted();
  }

  // ---- One record ------------------------------------------------------------------------

  lemma OwnerKnown(h: seq<Event>, s: P.State, t: Token)
    requires SessionsRead(h, s)
    ensures Owner(h, t).Some? <==> t in s.profiles
  {
    hide Owner, Key, Shut, Setting;
    assert SessionRead(h, s, t);
  }

  lemma HookLegible(h: seq<Event>, e: Event, s: P.State)
    requires CallsRead(h, s) && SessionsRead(h, s) && WritesRead(h, s) && e.HookEvent?
    ensures P.OnHook(s, e, |h| + 1).Some? <==> Legible(h, e)
  {
    hide SessionsRead, Running, Pending, LastWrite, Unwritten, Owner, P.Attributed, WritesRead;
    OwnerKnown(h, s, e.token);
    if s.active.Some? {
      OwnerKnown(h, s, s.active.value);
      WriteHere(h, s, s.active.value);
    }
  }

  lemma ResultLegible(h: seq<Event>, e: Event, s: P.State)
    requires CallsRead(h, s) && SessionsRead(h, s) && e.RpcResult?
    ensures P.OnResult(s, e, |h| + 1).Some? <==> Legible(h, e)
  {
    hide SessionsRead, Running, Pending, LastWrite, Owner, P.Remembered;
    var c := e.connection;
    assert (if c in s.requests then Some(s.requests[c]) else None) == Pending(h, c);
    if c in s.requests {
      var t := P.SessionOf(s.requests[c].arguments);
      if t.Some? {
        OwnerKnown(h, s, t.value);
      }
    }
  }

  lemma StepLegible(h: seq<Event>, e: Event, s: P.State)
    requires AllRead(h, s) && WritesRead(h, s)
    ensures P.Step(s, e, |h| + 1).Some? <==> Legible(h, e)
  {
    hide CallsRead, SessionsRead, LinesRead, WritesRead, P.OnHook, P.OnResult, P.OnReject, P.OnRequest, P.OnDisconnect;
    if e.HookEvent? {
      HookLegible(h, e, s);
    } else if e.RpcResult? {
      ResultLegible(h, e, s);
    }
  }

  // ---- Whole journals ---------------------------------------------------------------------

  lemma LegibleNext(h: seq<Event>, e: Event)
    ensures AllLegible(h + [e]) <==> AllLegible(h) && Legible(h, e)
  {
    hide Legible;
    var j, n := h + [e], |h|;
    assert j[..n] == h && j[n] == e;
    assert forall k :: 0 <= k < n ==> j[..k] == h[..k] && j[k] == h[k];
  }

  lemma {:induction false} FoldLegible(j: seq<Event>)
    ensures P.Fold(j).Some? <==> AllLegible(j)
    ensures P.Fold(j).Some? ==> WritesRead(j, P.Fold(j).value)
  {
    if j != [] {
      hide P.Step, AllLegible, WritesRead, AllRead, Legible;
      var h, e := j[..|j| - 1], j[|j| - 1];
      assert j == h + [e];
      FoldLegible(h);
      LegibleNext(h, e);
      if P.Fold(h).Some? {
        var s := P.Fold(h).value;
        FoldReports(h);
        StepLegible(h, e, s);
        if P.Fold(j).Some? {
          CallsAreRead(h, s);
          WritesStep(h, e, s, P.Fold(j).value);
        }
      }
    }
  }

  lemma CallsAreRead(j: seq<Event>, s: P.State)
    requires AllRead(j, s)
    ensures CallsRead(j, s)
  {
  }

  /** At the end nothing is left undone exactly when the loop's tables are empty. */
  lemma FinishedIs(j: seq<Event>, s: P.State)
    requires CallsRead(j, s) && WritesRead(j, s)
    ensures Finished(j) <==> s.active.None? && s.writes == map[] && s.requests == map[]
  {
    hide Running, Pending, Unwritten, LastWrite;
    if Finished(j) {
      forall t ensures t !in s.writes {
        assert Unwritten(j, t).None?;
      }
      forall c ensures c !in s.requests {
        assert Pending(j, c).None?;
      }
    }
  }

  /** A journal that is not empty projects exactly when a simulator state is on record, every record is legible,
      nothing is left undone and no two reported events bear one number. */
  lemma ProjectsWhen(j: seq<Event>)
    requires j != []
    ensures P.Project(j).Some? <==>
      P.HasState(j) && AllLegible(j) && Finished(j) && (P.Fold(j).Some? ==> !P.Colliding(P.Fold(j).value.drafts))
  {
    hide P.Fold, P.Sorted, P.Colliding, AllLegible, Finished, WritesRead, AllRead;
    FoldLegible(j);
    if P.Fold(j).Some? {
      FoldReports(j);
      CallsAreRead(j, P.Fold(j).value);
      FinishedIs(j, P.Fold(j).value);
    }
  }
}
