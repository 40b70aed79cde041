/** What the billing tables mean: users linked to Stripe customers, subscriptions by their id, and recorded events. */
module BillingMaps {
  import opened Prelude

  datatype Plan = Plan(userId: nat, customerId: string, priceId: Option<string>, status: string, plan: Option<string>,
                       periodStart: Option<Time>, periodEnd: Option<Time>, cancelAtPeriodEnd: bool)

  datatype Event = Event(kind: string, payload: string, processedAt: Option<Time>)

  datatype Billing = Billing(links: map<nat, string>, plans: map<string, Plan>, events: map<string, Event>)

  datatype Op =
    | Link(userId: nat, customerId: string)
    | Upsert(subscriptionId: string, plan: Plan)
    | Cancel(subscriptionId: string, cancelAtPeriodEnd: bool)
    | Record(eventId: string, event: Event)
    | MarkProcessed(eventId: string, now: Time)

  /** Some other user has the customer. */
  predicate TakenByOther(links: map<nat, string>, userId: nat, customerId: string) {
    exists u :: u in links && u != userId && links[u] == customerId
  }

  /** Whether the store accepts an operation; the alternative is a BillingStoreError and unchanged tables. */
  predicate Accepted(b: Billing, users: set<nat>, op: Op) {
    match op
    case Link(u, c) => u in users && !TakenByOther(b.links, u, c)
    case Upsert(_, plan) => plan.userId in users
    case Cancel(s, _) => s in b.plans
    case Record(_, _) => true
    case MarkProcessed(e, _) => e in b.events
  }

  function Step(b: Billing, users: set<nat>, op: Op): Billing {
    if !Accepted(b, users, op) then b
    else
      match op
      case Link(u, c) => b.(links := b.links[u := c])
      case Upsert(s, plan) => b.(plans := b.plans[s := plan])
      case Cancel(s, at) => b.(plans := b.plans[s := b.plans[s].(status := "canceled", cancelAtPeriodEnd := at)])
      case Record(e, event) => if e in b.events then b else b.(events := b.events[e := event])
      case MarkProcessed(e, now) => b.(events := b.events[e := b.events[e].(processedAt := Some(now))])
  }

  function Run(b: Billing, users: set<nat>, ops: seq<Op>): Billing
    decreases |ops|
  {
    if ops == [] then b else Run(Step(b, users, ops[0]), users, ops[1..])
  }

  /** The answer to recording an event: is it to be processed now? */
  predicate ShouldProcess(b: Billing, op: Op) {
    op.Record? && op.eventId !in b.events
  }

  // ---------------------------------------------------------------- customers

  /** No two users share a Stripe customer. */
  predicate Injective(links: map<nat, string>) {
    forall u, v :: u in links && v in links && links[u] == links[v] ==> u == v
  }

  /** Linking never gives a customer to two users, and never touches the link of another user. */
  lemma {:induction false} LinksStayInjective(b: Billing, users: set<nat>, ops: seq<Op>)
    requires Injective(b.links) && b.links.Keys <= users
    ensures Injective(Run(b, users, ops).links) && b.links.Keys <= Run(b, users, ops).links.Keys <= users
    decreases |ops|
  {
    if ops != [] {
      LinksStayInjective(Step(b, users, ops[0]), users, ops[1..]);
    }
  }

  /** Whatever happens to other users, subscriptions and events, a user keeps the customer it is linked to. */
  lemma {:induction false} OthersLeaveALinkAlone(b: Billing, users: set<nat>, ops: seq<Op>, user: nat)
    requires forall i :: 0 <= i < |ops| && ops[i].Link? ==> ops[i].userId != user
    ensures user in Run(b, users, ops).links <==> user in b.links
    ensures user in b.links ==> Run(b, users, ops).links[user] == b.links[user]
    decreases |ops|
  {
    if ops != [] {
      OthersLeaveALinkAlone(Step(b, users, ops[0]), users, ops[1..], user);
    }
  }

  // ---------------------------------------------------------------- events

  /** How often a run answers that this event is to be processed. */
  function TimesToProcess(b: Billing, users: set<nat>, ops: seq<Op>, eventId: string): nat
    decreases |ops|
  {
    if ops == [] then 0
    else
      (if ShouldProcess(b, ops[0]) && ops[0].eventId == eventId then 1 else 0)
      + TimesToProcess(Step(b, users, ops[0]), users, ops[1..], eventId)
  }

  predicate Recorded(ops: seq<Op>, eventId: string) {
    exists i :: 0 <= i < |ops| && ops[i].Record? && ops[i].eventId == eventId
  }

  /** Exactly the first delivery of an event is to be processed, and what it carried is kept whatever comes later. */
  lemma {:induction false} ProcessedExactlyOnce(b: Billing, users: set<nat>, ops: seq<Op>, eventId: string)
    ensures TimesToProcess(b, users, ops, eventId) == if eventId !in b.events && Recorded(ops, eventId) then 1 else 0
    ensures eventId in Run(b, users, ops).events <==> eventId in b.events || Recorded(ops, eventId)
    ensures eventId in b.events ==>
              Run(b, users, ops).events[eventId].kind == b.events[eventId].kind &&
              Run(b, users, ops).events[eventId].payload == b.events[eventId].payload
    decreases |ops|
  {
    if ops != [] {
      var rest := ops[1..];
      ProcessedExactlyOnce(Step(b, users, ops[0]), users, rest, eventId);
      if Recorded(rest, eventId) {
        var i :| 0 <= i < |rest| && rest[i].Record? && rest[i].eventId == eventId;
        assert ops[i + 1] == rest[i];
      }
      if Recorded(ops, eventId) && !(ops[0].Record? && ops[0].eventId == eventId) {
        var i :| 0 <= i < |ops| && ops[i].Record? && ops[i].eventId == eventId;
        assert rest[i - 1] == ops[i];
      }
    }
  }

  // ---------------------------------------------------------------- subscriptions

  predicate Concerns(op: Op, subscriptionId: string) {
    (op.Upsert? || op.Cancel?) && op.subscriptionId == subscriptionId
  }

  function Only(ops: seq<Op>, subscriptionId: string): seq<Op>
    decreases |ops|
  {
    if ops == [] then []
    else (if Concerns(ops[0], subscriptionId) then [ops[0]] else []) + Only(ops[1..], subscriptionId)
  }

  function PlanOf(b: Billing, subscriptionId: string): Option<Plan> {
    if subscriptionId in b.plans then Some(b.plans[subscriptionId]) else None
  }

  /** A subscription is determined by the operations on its own id: everything else may as well not have happened. */
  lemma {:induction false} PlansAreIndependent(
    b: Billing, c: Billing, users: set<nat>, ops: seq<Op>, subscriptionId: string)
    requires PlanOf(b, subscriptionId) == PlanOf(c, subscriptionId)
    ensures PlanOf(Run(b, users, ops), subscriptionId) ==
      PlanOf(Run(c, users, Only(ops, subscriptionId)), subscriptionId)
    decreases |ops|
  {
    if ops != [] {
      var b1 := Step(b, users, ops[0]);
      var rest := Only(ops[1..], subscriptionId);
      if Concerns(ops[0], subscriptionId) {
        assert ([ops[0]] + rest)[1..] == rest;
        PlansAreIndependent(b1, Step(c, users, ops[0]), users, ops[1..], subscriptionId);
      } else {
        assert [] + rest == rest;
        PlansAreIndependent(b1, c, users, ops[1..], subscriptionId);
      }
    }
  }

  /** After an accepted write, later writes on other ids leave exactly what was written. */
  lemma LastWriteStays(b: Billing, users: set<nat>, subscriptionId: string, plan: Plan, later: seq<Op>)
    requires plan.userId in users && forall i :: 0 <= i < |later| ==> !Concerns(later[i], subscriptionId)
    ensures PlanOf(Run(b, users, [Upsert(subscriptionId, plan)] + later), subscriptionId) == Some(plan)
  {
    var op := Upsert(subscriptionId, plan);
    assert ([op] + later)[1..] == later;
    PlansAreIndependent(Step(b, users, op), Step(b, users, op), users, later, subscriptionId);
    OnlyNothing(later, subscriptionId);
  }

  lemma {:induction false} OnlyNothing(ops: seq<Op>, subscriptionId: string)
    requires forall i :: 0 <= i < |ops| ==> !Concerns(ops[i], subscriptionId)
    ensures Only(ops, subscriptionId) == []
    decreases |ops|
  {
    if ops != [] {
      OnlyNothing(ops[1..], subscriptionId);
    }
  }

  // ---------------------------------------------------------------- what each operation writes, and for how long

  /** An accepted link is the user's customer until that user is linked again. */
  lemma LinkHolds(b: Billing, users: set<nat>, u: nat, customerId: string, later: seq<Op>)
    requires u in users && forall v :: v in b.links && v != u ==> b.links[v] != customerId
    requires forall i :: 0 <= i < |later| && later[i].Link? ==> later[i].userId != u
    ensures var b' := Run(b, users, [Link(u, customerId)] + later);
      u in b'.links && b'.links[u] == customerId
  {
    var op := Link(u, customerId);
    assert ([op] + later)[1..] == later;
    OthersLeaveALinkAlone(Step(b, users, op), users, later, u);
  }

  /** A link of an unknown user, or to another user's customer, changes nothing. */
  lemma LinkRefused(b: Billing, users: set<nat>, u: nat, customerId: string, owner: nat)
    requires u !in users || (owner in b.links && owner != u && b.links[owner] == customerId)
    ensures Step(b, users, Link(u, customerId)) == b
  {
  }

  /** A cancelled subscription reads canceled, with the flag given and all else as it was, until it is written again. */
  lemma CancellationHolds(b: Billing, users: set<nat>, subscriptionId: string, atPeriodEnd: bool, later: seq<Op>)
    requires subscriptionId in b.plans && forall i :: 0 <= i < |later| ==> !Concerns(later[i], subscriptionId)
    ensures var was := b.plans[subscriptionId];
      PlanOf(Run(b, users, [Cancel(subscriptionId, atPeriodEnd)] + later), subscriptionId) ==
      Some(Plan(was.userId, was.customerId, was.priceId, "canceled", was.plan, was.periodStart, was.periodEnd,
                atPeriodEnd))
  {
    var op := Cancel(subscriptionId, atPeriodEnd);
    assert ([op] + later)[1..] == later;
    PlansAreIndependent(Step(b, users, op), Step(b, users, op), users, later, subscriptionId);
    OnlyNothing(later, subscriptionId);
  }

  /** The first delivery of an event is what stays of it, whatever later deliveries carry. */
  lemma FirstDeliveryHolds(b: Billing, users: set<nat>, eventId: string, event: Event, later: seq<Op>)
    requires eventId !in b.events
    ensures var b' := Run(b, users, [Record(eventId, event)] + later);
      eventId in b'.events && b'.events[eventId].kind == event.kind && b'.events[eventId].payload == event.payload
  {
    var op := Record(eventId, event);
    assert ([op] + later)[1..] == later;
    ProcessedExactlyOnce(Step(b, users, op), users, later, eventId);
  }

  predicate Marks(op: Op, eventId: string) {
    op.MarkProcessed? && op.eventId == eventId
  }

  lemma {:induction false} UnmarkedStays(b: Billing, users: set<nat>, ops: seq<Op>, eventId: string)
    requires eventId in b.events && forall i :: 0 <= i < |ops| ==> !Marks(ops[i], eventId)
    ensures var b' := Run(b, users, ops); eventId in b'.events && b'.events[eventId] == b.events[eventId]
    decreases |ops|
  {
    if ops != [] {
      UnmarkedStays(Step(b, users, ops[0]), users, ops[1..], eventId);
    }
  }

  /** A recorded event that is marked carries that time until it is marked again, and what it carried before. */
  lemma ProcessingHolds(b: Billing, users: set<nat>, eventId: string, now: Time, later: seq<Op>)
    requires eventId in b.events && forall i :: 0 <= i < |later| ==> !Marks(later[i], eventId)
    ensures var b' := Run(b, users, [MarkProcessed(eventId, now)] + later);
      && eventId in b'.events
      && b'.events[eventId] == Event(b.events[eventId].kind, b.events[eventId].payload, Some(now))
  {
    var op := MarkProcessed(eventId, now);
    assert ([op] + later)[1..] == later;
    UnmarkedStays(Step(b, users, op), users, later, eventId);
  }
}
