/** The job store as an object: the same table, updated in place. */
module JobStore {
  import opened Prelude
  import opened JobTable

  class Store {
    var rows: map<nat, Job>
    var nextId: nat
    var events: seq<StepEvent>
    const users: set<nat>

    ghost function State(): Table
      reads this
    {
      Table(rows, nextId, events)
    }

    ghost predicate Valid()
      reads this
    {
      JobTable.Invariant(State())
    }

    constructor (users: set<nat>)
      ensures Valid() && State() == EMPTY && this.users == users
    {
      this.users := users;
      rows, nextId, events := map[], 1, [];
    }

    /** `select(Job).where(Job.run_id == run_id)`. */
    method GetJobByRunId(runId: string) returns (r: Option<nat>)
      requires Valid()
      ensures r.Some? <==> RunIdTaken(State(), runId)
      ensures r.Some? ==> r.value == WithRunId(State(), runId)
    {
      if id :| id in rows && rows[id].request.runId == Some(runId) {
        assert RunIdTaken(State(), runId);
        assert SameRunId(State(), id, WithRunId(State(), runId));
        return Some(id);
      }
      return None;
    }

    method CreateJob(request: Request, now: Time) returns (r: Creation)
      requires Valid()
      modifies this
      ensures Valid()
      ensures (State(), r) == JobTable.CreateJob(old(State()), users, request, now)
    {
      CreationKeepsInvariant(State(), users, request, now);
      var existing := None;
      if request.runId.Some? {
        existing := GetJobByRunId(request.runId.value);
      }
      if request.userId in users && existing.None? {
        rows, nextId := rows[nextId := NewJob(request, now)], nextId + 1;
        return Created(nextId - 1);
      }
      if existing.None? {
        return Refused;
      }
      if rows[existing.value].request.userId != request.userId {
        return OwnedByAnother;
      }
      return Existing(existing.value);
    }

    /** `UPDATE ... WHERE id = ... AND status IN (...) RETURNING id`. */
    method TransitionJob(id: nat, change: Change, now: Time) returns (won: bool)
      requires Valid()
      modifies this
      ensures Valid()
      ensures (State(), won) == Transition(old(State()), id, change, now)
    {
      TransitionKeepsInvariant(State(), id, change, now);
      won := id in rows && rows[id].status in Accepts(change);
      if won {
        rows := rows[id := Changed(rows[id], change, now)];
        if change.CompleteStep? {
          events := events + [StepEvent(id, change.step, change.payload)];
        }
      }
    }
  }
}
