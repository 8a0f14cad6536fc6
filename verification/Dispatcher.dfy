/** The dispatcher as it runs (instrumented_microscope.py). */
module Dispatcher {
  import opened Wrappers
  import opened DispatcherModel

  class OperationDispatcher {
    var preflight: Preflight
    var checkpointIndex: nat
    var patterns: map<string, Pattern>
    var journal: seq<Event>

    constructor ()
      ensures AsState() == FIRST && journal == []
    {
      preflight, checkpointIndex, patterns, journal := UNTRIED, 0, map[], [];
    }

    function AsState(): State reads this { State(preflight, checkpointIndex, patterns) }

    /** dispatch: one request, answered by the backend with `reply` if it gets that far. */
    method Dispatch(r: Request, reply: Reply)
      modifies this
      ensures (AsState(), journal)
           == (Dispatched(old(AsState()), r, reply).0, old(journal) + Dispatched(old(AsState()), r, reply).1)
    {
      hide Handle;
      if !r.digestible || r.operation.Unknown? {
        journal := journal + [Rejected(r.operation)];
        return;
      }
      journal := journal + [Requested(r.operation)];
      ghost var events := Handle(AsState(), r, reply).events;
      var end := RunHandler(r, reply);
      ghost var before := [Requested(r.operation)];
      assert old(journal) + (before + events + Ending(r, end, reply)) == old(journal) + before + events + Ending(r, end, reply);
      match end
      case Done(receipt) =>
        if !reply.Value? || reply.digestible {
          journal := journal + [Completed(r, receipt)];
        } else {
          assert journal + [] == journal;
        }
      case Refused => journal := journal + [Rejected(r.operation)];
      case Broke => journal := journal + [Failed(r.operation)];
    }

    method RunHandler(r: Request, reply: Reply) returns (end: End)
      modifies this
      ensures
        var o := Handle(old(AsState()), r, reply);
        AsState() == o.state && journal == old(journal) + o.events && end == o.end
    {
      hide Received, Flagged, Admissible;
      if !Admissible(AsState(), r) {
        return Refused;
      }
      if r.operation.Checkpoint? {
        journal := journal + [FreezeRequested(r.step)];
        if !reply.Value? {
          return Broke;
        }
        journal := journal + [Exported(r.step)];
        checkpointIndex := checkpointIndex + 1;
        journal := journal + [Frozen(r.step)];
        return Done(None);
      }
      if !reply.Value? {
        return if reply.Mapped? then Refused else Broke;
      }
      if HandlesPattern(r.operation) {
        end := HandlePattern(r, reply.receipt);
      } else {
        preflight := Flagged(preflight, r);
        end := Done(None);
      }
    }

    /** _record_new_pattern for a run, _operation_id for a status or stop. */
    method HandlePattern(r: Request, receipt: Option<Receipt>) returns (end: End)
      modifies this`patterns, this`preflight
      ensures
        var o := Received(old(AsState()), r, receipt);
        AsState() == o.state && end == o.end && o.events == []
    {
      if receipt.None? || receipt.value.id == "" {
        return Broke;
      }
      var id, status := receipt.value.id, receipt.value.status;
      var purpose := r.purpose;
      if r.operation.RunCut? || r.operation.RunDeposition? {
        if id in patterns {
          return Broke;
        }
      } else {
        if id != r.id || id !in patterns {
          return Broke;
        }
        if r.operation.StopPattern? && (status.Queued? || status.Running?) {
          return Broke;
        }
        purpose := patterns[id].purpose;
      }
      patterns := patterns[id := Pattern(purpose, status)];
      if status == Finished {
        preflight := Coupon(preflight, purpose);
      }
      return Done(receipt);
    }
  }
}
