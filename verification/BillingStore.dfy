/**
 The billing store: select, then update or insert, then look again when the insert met a unique column. The first select
 may miss a row that a concurrent transaction has just committed; `missed` says that it does.
 */
module BillingStore {
  import opened Prelude
  import opened BillingMaps
  import UniqueTable

  class Store {
    const users: set<nat>
    var customers: UniqueTable.Table<nat, string>
    var subscriptions: UniqueTable.Table<string, Plan>
    var events: UniqueTable.Table<string, Event>
    ghost var billing: Billing

    ghost predicate Valid()
      reads this
    {
      && UniqueTable.Represents(customers, billing.links)
      && UniqueTable.Represents(subscriptions, billing.plans)
      && UniqueTable.Represents(events, billing.events)
      && Injective(billing.links) && billing.links.Keys <= users
    }

    constructor (users: set<nat>)
      ensures Valid() && billing == Billing(map[], map[], map[]) && this.users == users
    {
      this.users := users;
      customers := UniqueTable.Table(map[], 1);
      subscriptions := UniqueTable.Table(map[], 1);
      events := UniqueTable.Table(map[], 1);
      billing := Billing(map[], map[], map[]);
    }

    /** Whether a row other than that of `userId` has the customer. */
    method CustomerTaken(userId: nat, customerId: string) returns (taken: bool)
      requires Valid()
      ensures taken == TakenByOther(billing.links, userId, customerId)
    {
      if id :| id in customers.rows && customers.rows[id].value == customerId && customers.rows[id].key != userId {
        assert UniqueTable.RowOk(customers, billing.links, id);
        return true;
      }
      forall u | u in billing.links && u != userId ensures billing.links[u] != customerId {
        assert UniqueTable.HasRow(customers, u);
        var id :| id in customers.rows && customers.rows[id].key == u;
        assert UniqueTable.RowOk(customers, billing.links, id);
      }
      return false;
    }

    /** The UPDATE of a customer row; the unique column may refuse it. */
    method UpdateBillingCustomer(id: nat, customerId: string) returns (ok: bool)
      requires Valid() && id in customers.rows && customers.rows[id].key in users
      modifies this
      ensures Valid() && ok == Accepted(old(billing), users, Link(old(customers).rows[id].key, customerId))
      ensures billing == BillingMaps.Step(old(billing), users, Link(old(customers).rows[id].key, customerId))
    {
      var userId := customers.rows[id].key;
      var taken := CustomerTaken(userId, customerId);
      if taken {
        return false;
      }
      UniqueTable.UpdateRepresents(customers, billing.links, id, customerId);
      customers := UniqueTable.Update(customers, id, customerId);
      billing := BillingMaps.Step(billing, users, Link(userId, customerId));
      return true;
    }

    method SetStripeCustomer(userId: nat, customerId: string, missed: bool) returns (ok: bool)
      requires Valid()
      modifies this
      ensures Valid() && ok == Accepted(old(billing), users, Link(userId, customerId))
      ensures billing == BillingMaps.Step(old(billing), users, Link(userId, customerId))
    {
      var existing := UniqueTable.Find(customers, billing.links, userId);
      if existing.Some? && !missed {
        ok := UpdateBillingCustomer(existing.value, customerId);
        return;
      }
      var taken := CustomerTaken(userId, customerId);
      if existing.None? && !taken && userId in users {
        UniqueTable.InsertRepresents(customers, billing.links, userId, customerId);
        customers := UniqueTable.Insert(customers, userId, customerId);
        billing := BillingMaps.Step(billing, users, Link(userId, customerId));
        return true;
      }
      // The insert met a unique column or the foreign key: look again.
      existing := UniqueTable.Find(customers, billing.links, userId);
      if existing.Some? {
        ok := UpdateBillingCustomer(existing.value, customerId);
        return;
      }
      return false;
    }

    /** The UPDATE of a subscription row; the foreign key may refuse it. */
    method UpdateSubscription(id: nat, plan: Plan) returns (ok: bool)
      requires Valid() && id in subscriptions.rows
      modifies this
      ensures Valid() && ok == Accepted(old(billing), users, Upsert(old(subscriptions).rows[id].key, plan))
      ensures billing == BillingMaps.Step(old(billing), users, Upsert(old(subscriptions).rows[id].key, plan))
    {
      if plan.userId !in users {
        return false;
      }
      UniqueTable.UpdateRepresents(subscriptions, billing.plans, id, plan);
      billing := BillingMaps.Step(billing, users, Upsert(subscriptions.rows[id].key, plan));
      subscriptions := UniqueTable.Update(subscriptions, id, plan);
      return true;
    }

    method UpsertSubscription(subscriptionId: string, plan: Plan, missed: bool) returns (ok: bool)
      requires Valid()
      modifies this
      ensures Valid() && ok == Accepted(old(billing), users, Upsert(subscriptionId, plan))
      ensures billing == BillingMaps.Step(old(billing), users, Upsert(subscriptionId, plan))
    {
      var existing := UniqueTable.Find(subscriptions, billing.plans, subscriptionId);
      if existing.Some? && !missed {
        ok := UpdateSubscription(existing.value, plan);
        return;
      }
      if existing.None? && plan.userId in users {
        UniqueTable.InsertRepresents(subscriptions, billing.plans, subscriptionId, plan);
        subscriptions := UniqueTable.Insert(subscriptions, subscriptionId, plan);
        billing := BillingMaps.Step(billing, users, Upsert(subscriptionId, plan));
        return true;
      }
      // The insert met the unique subscription id or the foreign key: look again.
      existing := UniqueTable.Find(subscriptions, billing.plans, subscriptionId);
      if existing.Some? {
        ok := UpdateSubscription(existing.value, plan);
        return;
      }
      return false;
    }

    method MarkSubscriptionCanceled(subscriptionId: string, cancelAtPeriodEnd: bool) returns (ok: bool)
      requires Valid()
      modifies this
      ensures Valid() && ok == Accepted(old(billing), users, Cancel(subscriptionId, cancelAtPeriodEnd))
      ensures billing == BillingMaps.Step(old(billing), users, Cancel(subscriptionId, cancelAtPeriodEnd))
    {
      var row := UniqueTable.Find(subscriptions, billing.plans, subscriptionId);
      if row.None? {
        return false;
      }
      var plan := subscriptions.rows[row.value].value.(status := "canceled", cancelAtPeriodEnd := cancelAtPeriodEnd);
      UniqueTable.UpdateRepresents(subscriptions, billing.plans, row.value, plan);
      subscriptions := UniqueTable.Update(subscriptions, row.value, plan);
      billing := BillingMaps.Step(billing, users, Cancel(subscriptionId, cancelAtPeriodEnd));
      return true;
    }

    /** Insert first; on a conflict answer with the row that is there. */
    method RecordBillingEvent(eventId: string, event: Event) returns (recorded: Event, shouldProcess: bool)
      requires Valid()
      modifies this
      ensures Valid() && shouldProcess == ShouldProcess(old(billing), Record(eventId, event))
      ensures billing == BillingMaps.Step(old(billing), users, Record(eventId, event))
      ensures eventId in billing.events && recorded == billing.events[eventId]
    {
      var existing := UniqueTable.Find(events, billing.events, eventId);
      if existing.Some? {
        return events.rows[existing.value].value, false;
      }
      UniqueTable.InsertRepresents(events, billing.events, eventId, event);
      events := UniqueTable.Insert(events, eventId, event);
      billing := BillingMaps.Step(billing, users, Record(eventId, event));
      return event, true;
    }

    method MarkBillingEventProcessed(eventId: string, now: Time) returns (ok: bool)
      requires Valid()
      modifies this
      ensures Valid() && ok == Accepted(old(billing), users, MarkProcessed(eventId, now))
      ensures billing == BillingMaps.Step(old(billing), users, MarkProcessed(eventId, now))
    {
      var row := UniqueTable.Find(events, billing.events, eventId);
      if row.None? {
        return false;
      }
      var event := events.rows[row.value].value.(processedAt := Some(now));
      UniqueTable.UpdateRepresents(events, billing.events, row.value, event);
      events := UniqueTable.Update(events, row.value, event);
      billing := BillingMaps.Step(billing, users, MarkProcessed(eventId, now));
      return true;
    }
  }
}
