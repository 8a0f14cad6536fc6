/** project_events and _active_close_all as they run (projection.py, partial_order.py). */
module Projector {
  import opened Wrappers
  import opened Wire
  import opened BrokerJournal
  import opened Projection

  lemma {:induction false} FailureStays(records: seq<Event>, n: nat)
    requires n <= |records| && Fold(records[..n]).None?
    ensures Fold(records).None?
    decreases |records| - n
  {
    hide Step;
    if n == |records| {
      assert records[..n] == records;
    } else {
      assert records[..n + 1][..n] == records[..n];
      FailureStays(records, n + 1);
    }
  }

  /** The connection.close branch: mark every abandoned session of the connection, in insertion order. */
  method SweepSessions(s: State, c: Connection, sequence: nat) returns (r: State)
    ensures r == OnDisconnect(s, c, sequence)
  {
    var profiles, keys, drafts, offset := s.profiles, {}, s.drafts, 0;
    for i := 0 to |s.order|
      invariant Sweep(profiles, keys, drafts, offset)
             == SweepAll(Sweep(s.profiles, {}, s.drafts, 0), s.order[..i], c, sequence)
    {
      assert s.order[..i + 1][..i] == s.order[..i];
      var t := s.order[i];
      if t in profiles && Abandoned(profiles[t], c) {
        var p := profiles[t];
        var key := KeyOf(p);
        profiles := profiles[t := p.(closed := true)];
        if key !in keys {
          keys := keys + {key};
          drafts := drafts + [Draft(sequence, CloseResource, Some(t), None, Some(ForcedClose), true, offset)];
          offset := offset + 1;
        }
      }
    }
    assert s.order[..|s.order|] == s.order;
    r := s.(profiles := profiles, drafts := drafts);
  }

  /** The main loop. */
  method ProjectRecords(records: seq<Event>) returns (r: Option<State>)
    ensures r == Fold(records)
  {
    var s := START;
    for i := 0 to |records|
      invariant Fold(records[..i]) == Some(s)
    {
      var e, sequence := records[i], i + 1;
      assert records[..i + 1][..i] == records[..i];
      var next := Some(s);
      if e.ConnectionClose? {
        var swept := SweepSessions(s, e.connection, sequence);
        next := Some(swept);
      } else {
        next := Step(s, e, sequence);
      }
      if next.None? {
        FailureStays(records, i + 1);
        return None;
      }
      s := next.value;
    }
    assert records[..|records|] == records;
    return Some(s);
  }

  /** len({event.sequence ...}) != len(projected) */
  method FindCollision(drafts: seq<Draft>) returns (colliding: bool)
    ensures colliding <==> Colliding(drafts)
  {
    var seen: set<nat> := {};
    for i := 0 to |drafts|
      invariant forall n :: n in seen <==> exists k :: 0 <= k < i && Materialize(drafts[k]).sequence == n
      invariant forall k, m :: 0 <= k < m < i ==> Materialize(drafts[k]).sequence != Materialize(drafts[m]).sequence
    {
      var n := Materialize(drafts[i]).sequence;
      if n in seen {
        return true;
      }
      seen := seen + {n};
    }
    return false;
  }

  method ProjectEvents(records: seq<Event>) returns (r: Option<seq<Evidence>>)
    ensures r == Project(records)
  {
    if records == [] {
      return Some([]);
    }
    if !HasState(records) {
      return None;
    }
    var end := ProjectRecords(records);
    if end.None? {
      return None;
    }
    var s := end.value;
    var colliding := FindCollision(s.drafts);
    if colliding || s.active.Some? || s.writes != map[] || s.requests != map[] {
      return None;
    }
    var projected: seq<Evidence> := [];
    for i := 0 to |s.drafts|
      invariant projected == Sorted(s.drafts[..i])
    {
      assert s.drafts[..i + 1][..i] == s.drafts[..i];
      projected := Inserted(Materialize(s.drafts[i]), projected);
    }
    assert s.drafts[..|s.drafts|] == s.drafts;
    return Some(projected);
  }

  method CheckActiveCloseAll(records: seq<Evidence>) returns (passed: bool)
    ensures passed <==> ActiveCloseAll(records)
  {
    var begun, closed: set<Token> := {}, {};
    for i := 0 to |records|
      invariant begun == OpenedTokens(records[..i]) && closed == ActivelyClosed(records[..i])
    {
      var e := records[i];
      assert records[..i + 1] == records[..i] + [e];
      OneRecord(records[..i], e);
      if e.token.Some? {
        if e.operation == OpenResource {
          begun := begun + {e.token.value};
        } else if e.operation == CloseResource && e.cleanup == Some(Candidate) {
          closed := closed + {e.token.value};
        }
      }
    }
    assert records[..|records|] == records;
    return begun != {} && begun == closed;
  }

  lemma OneRecord(records: seq<Evidence>, e: Evidence)
    ensures OpenedTokens(records + [e])
         == OpenedTokens(records) + if e.operation == OpenResource && e.token.Some? then {e.token.value} else {}
    ensures ActivelyClosed(records + [e])
         == ActivelyClosed(records)
            + if e.operation == CloseResource && e.cleanup == Some(Candidate) && e.token.Some? then {e.token.value} else {}
  {
    var all := records + [e];
    assert all[|records|] == e && forall i :: 0 <= i < |records| ==> all[i] == records[i];
    forall t | t in OpenedTokens(records) ensures t in OpenedTokens(all) {
      var i :| 0 <= i < |records| && records[i].operation == OpenResource && records[i].token == Some(t);
      assert all[i] == records[i];
    }
    forall t | t in ActivelyClosed(records) ensures t in ActivelyClosed(all) {
      var i :| 0 <= i < |records| && records[i].operation == CloseResource && records[i].cleanup == Some(Candidate)
               && records[i].token == Some(t);
      assert all[i] == records[i];
    }
  }
}
