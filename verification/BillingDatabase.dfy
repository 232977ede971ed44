/** The billing tables, updated in place by one method a transaction. */
module BillingDatabase {
  import opened CreditModel
  import opened Invoices
  import opened Billing

  class Database {
    const config: Config
    var checkouts: map<Id, Checkout>
    var subscriptions: map<Id, Subscription>
    var invoices: map<string, Row>
    var events: map<string, bool>
    var next: Id

    function State(): Store
      reads this
    {
      Store(checkouts, subscriptions, invoices, events, next)
    }

    constructor (config: Config)
      ensures State() == EMPTY_STORE && this.config == config
    {
      this.config := config;
      checkouts, subscriptions, invoices, events, next := map[], map[], map[], map[], 0;
    }

    /** Back to the tables as they were when the transaction began. */
    method Rollback(before: Store)
      modifies this
      ensures State() == before
    {
      checkouts, subscriptions, invoices, events, next :=
        before.checkouts, before.subscriptions, before.invoices, before.events, before.next;
    }

    method ExpireStaleAttempts(business: Id, now: Time)
      modifies this
      ensures State() == ExpireStale(old(State()), business, now)
    {
      ghost var start := checkouts;
      var rows := set i | i in checkouts && checkouts[i].business == business && Ongoing(checkouts[i])
        && checkouts[i].expires.Some? && checkouts[i].expires.value <= now;
      while rows != {}
        invariant checkouts.Keys == start.Keys && rows <= checkouts.Keys
        invariant forall i | i in rows :: checkouts[i] == start[i] && Lapsed(start[i], business, now) == start[i].(status := Expired)
        invariant forall i | i in checkouts && i !in rows :: checkouts[i] == Lapsed(start[i], business, now)
        invariant State() == old(State()).(checkouts := checkouts)
        decreases |rows|
      {
        var i :| i in rows;
        checkouts := checkouts[i := checkouts[i].(status := Expired)];
        rows := rows - {i};
      }
      assert checkouts == ExpireStale(old(State()), business, now).checkouts;
    }

    method PrepareAttempt(business: Id, plan: Id, key: string, now: Time, expires: Time) returns (prepared: Prepared)
      modifies this
      ensures (State(), prepared) == Prepare(old(State()), business, plan, key, now, expires)
    {
      hide ExpireStale, FindOngoing, FindPaid;
      var before := State();
      ExpireStaleAttempts(business, now);
      var existing := FindKey(State(), business, key);
      if existing.Some? {
        var c := checkouts[existing.value];
        if c.plan != plan || c.subscription !in subscriptions || subscriptions[c.subscription].business != business {
          Rollback(before);
          return Conflict;
        }
        return Existing(existing.value);
      }
      var ongoing := FindOngoing(State(), business);
      if ongoing.Some? {
        Rollback(before);
        return InProgress(ongoing.value);
      }
      var current := FindCurrent(State(), business);
      if current.Some? {
        var paid := FindPaid(State(), business, current.value);
        if subscriptions[current.value].remote.Some? || paid.Some? {
          Rollback(before);
          return Conflict;
        }
      }
      var holder: Id;
      if current.Some? {
        holder := current.value;
      } else {
        holder := next;
        subscriptions := subscriptions[holder := Subscription(business, None, Incomplete, None, None, None)];
        next := next + 1;
      }
      prepared := Created(next);
      checkouts := checkouts[next := Checkout(business, holder, plan, key, Pending, None, None, Some(expires), None, None, None)];
      next := next + 1;
    }

    /** `seen` is the status that the session holds for the row after the locked read. */
    method PublishAttempt(id: Id, session: string, url: string, expires: Time, refreshes: bool)
      modifies this
      ensures State() == Publish(old(State()), id, session, url, expires, refreshes)
    {
      if id !in checkouts {
        return;
      }
      var row := checkouts[id];
      var seen := if refreshes then row.status else Pending;
      row := row.(session := Some(session), url := Some(url), expires := Some(expires));
      if seen == Pending {
        row := row.(status := Opened);
      }
      if Ongoing(row) && IndexTaken(State(), id, row.business) {
        return;
      }
      checkouts := checkouts[id := row];
    }

    method ExpireRejectedAttempt(id: Id, now: Time, refreshes: bool)
      modifies this
      ensures State() == Reject(old(State()), id, now, refreshes)
    {
      if id in checkouts {
        var row := checkouts[id];
        if !refreshes || (row.status == Pending && row.session == None && row.url == None) {
          checkouts := checkouts[id := row.(status := Expired, expires := Some(now))];
        }
      }
    }

    method CloseSubscription(id: Id, remote: string, customer: string, price: string)
      requires id in subscriptions
      modifies this
      ensures State() == FailClosed(old(State()), id, remote, customer, price)
    {
      subscriptions := subscriptions[id := subscriptions[id].(
        plan := None, status := Incomplete, customer := Some(customer), remote := Some(remote), price := Some(price))];
    }

    /** Brings the local subscription, and the checkout it came from, in line with the provider's snapshot. */
    method SyncSubscription(snapshot: Snapshot, now: Time) returns (id: Option<Id>, ok: bool)
      modifies this
      ensures match Sync(config, old(State()), snapshot, now)
        case SyncFailed => !ok && State() == old(State())
        case Unrelated => ok && id == None && State() == old(State())
        case SyncedTo(i, t) => ok && id == Some(i) && State() == t
    {
      hide MetadataFits, AnyKey;
      var before := State();
      if snapshot.id == None || snapshot.customer == None {
        return None, false;
      }
      var remote, customer, m := snapshot.id.value, snapshot.customer.value, snapshot.metadata;
      var existing := FindRemote(State(), remote);
      if existing.None? && !AnyKey(m) {
        return None, true;
      }
      if snapshot.price == None || (existing.Some? && !MetadataFits(config, subscriptions[existing.value], m)) {
        return None, false;
      }
      if snapshot.price.value !in config.prices {
        if existing.None? {
          return None, false;
        }
        CloseSubscription(existing.value, remote, customer, snapshot.price.value);
        return existing, true;
      }
      var plan := config.prices[snapshot.price.value];
      var local := FindLocal(config, State(), existing, m, plan);
      if local.None? {
        return None, false;
      }
      var sub := subscriptions[local.value];
      if (sub.customer.Some? && sub.customer != Some(customer)) || (sub.remote.Some? && sub.remote != Some(remote)) {
        return None, false;
      }
      if !snapshot.status.Known? {
        if snapshot.status == NoStatus || existing.None? {
          return None, false;
        }
        CloseSubscription(local.value, remote, customer, snapshot.price.value);
        return local, true;
      }
      subscriptions := subscriptions[local.value := sub.(
        plan := Some(plan.id), status := snapshot.status.status, customer := Some(customer), remote := Some(remote), price := snapshot.price)];
      if m.checkout == Missing {
        return local, true;
      }
      if !m.checkout.Named? || m.checkout.id !in checkouts {
        Rollback(before);
        return None, false;
      }
      var c := checkouts[m.checkout.id];
      if c.business != sub.business || c.subscription != local.value {
        Rollback(before);
        return None, false;
      }
      checkouts := checkouts[m.checkout.id := Completed(c, customer, remote, now)];
      return local, true;
    }

    method CompleteCheckout(ended: CheckoutObject, expired: bool, now: Time) returns (processed: bool, ok: bool)
      modifies this
      ensures match EndCheckout(config, old(State()), ended, expired, now)
        case Failed => !ok && State() == old(State())
        case Done(t, p) => ok && processed == p && State() == t
    {
      var m := ended.metadata;
      if m.checkout == Missing {
        return false, true;
      }
      if m.environment != Some(config.environment) || !m.checkout.Named? || !m.business.Named? || !m.subscription.Named? {
        return false, false;
      }
      var id := m.checkout.id;
      if id !in checkouts || checkouts[id].business != m.business.id {
        return false, false;
      }
      var row := checkouts[id];
      if row.subscription != m.subscription.id || m.plan == None || ended.id == None
        || (row.session.Some? && row.session != ended.id) {
        return false, false;
      }
      row := row.(session := ended.id);
      if expired {
        if row.status != Complete {
          row := row.(status := Expired);
        }
      } else {
        if ended.customer == None || ended.subscription == None {
          return false, false;
        }
        row := Completed(row, ended.customer.value, ended.subscription.value, now);
      }
      checkouts := checkouts[id := row];
      return true, true;
    }

    method UpsertInvoice(d: Delivery) returns (processed: bool, ok: bool)
      modifies this
      ensures match StoreInvoice(old(State()), d)
        case Failed => !ok && State() == old(State())
        case Done(t, p) => ok && processed == p && State() == t
    {
      hide Upper;
      var i := d.invoice;
      var local := Local(State(), i.id);
      if local.Some? && d.time < local.value.time {
        return false, true;
      }
      if i.customer == None || i.customer != d.holder.customer || i.status == None {
        return false, false;
      }
      if local.Some? && d.time == local.value.time && StatusRank(i.status.value) < StatusRank(local.value.status) {
        return false, true;
      }
      if !UsableCurrency(i) || i.amounts == None || i.created == None {
        return false, false;
      }
      if local.Some? && (local.value.subscription != d.holder.subscription || local.value.business != d.holder.business) {
        return false, false;
      }
      invoices := invoices[i.id := RowOf(d)];
      return true, true;
    }

    method ProcessInvoice(e: Event, invoice: Invoice, remote: Option<string>, answer: Option<Snapshot>, now: Time)
      returns (processed: bool, ok: bool)
      requires e.body == InvoiceChanged(invoice, remote)
      modifies this
      ensures match EffectOf(config, old(State()), e, answer, now)
        case Failed => !ok
        case Done(t, p) => ok && processed == p && State() == t
    {
      hide Sync, FindRemote, StoreInvoice;
      if remote == None {
        return false, true;
      }
      var holder: Option<Id>;
      if answer.Some? {
        var synced;
        holder, synced := SyncSubscription(answer.value, now);
        if !synced {
          return false, false;
        }
        if holder == None {
          return false, true;
        }
      } else {
        holder := FindRemote(State(), remote.value);
        if holder == None {
          return false, false;
        }
      }
      if holder.value !in subscriptions {
        return false, false;
      }
      processed, ok := UpsertInvoice(DeliveryTo(State(), holder.value, invoice, e.id, e.time));
    }

    /** The claim, the event's effect and its result, or none of them. */
    method ProcessEvent(e: Event, answer: Option<Snapshot>, now: Time) returns (receipt: Receipt)
      modifies this
      ensures (State(), receipt) == Process(config, old(State()), e, answer, now)
    {
      hide Sync, EndCheckout, StoreInvoice, ResolveHolder;
      if !e.usable {
        return Rejected;
      }
      if e.id in events {
        return Duplicate;
      }
      var before := State();
      var processed, ok := false, true;
      match e.body {
        case SubscriptionChanged(deleted, changed) =>
          if !deleted && (changed.id == None || answer == None) {
            return Rejected;
          }
          var found;
          found, ok := SyncSubscription(if deleted then changed else answer.value, now);
          processed := found.Some?;
        case CheckoutEnded(ended, expired) =>
          processed, ok := CompleteCheckout(ended, expired, now);
        case InvoiceChanged(invoice, remote) =>
          processed, ok := ProcessInvoice(e, invoice, remote, answer, now);
        case Unhandled =>
      }
      if !ok {
        Rollback(before);
        return Rejected;
      }
      events := events[e.id := processed];
      receipt := Accepted;
    }
  }
}
