/** Which webhook events are taken, and whether they are recorded as processed or as ignored. */
module WebhookDecisions {
  import opened CreditModel
  import opened Invoices
  import opened Billing
  import opened BillingTheorems
  import opened SubscriptionSync
  import BillingDecisions

  /** A subscription of somebody else: identified, without any of our metadata, and held by no row. */
  predicate Foreign(s: Store, snapshot: Snapshot) {
    && snapshot.id.Some? && snapshot.customer.Some? && NoMetadata(snapshot.metadata)
    && forall j | j in s.subscriptions :: !HeldBy(s, j, snapshot.id.value)
  }

  /** The snapshot is applied to row i. */
  ghost predicate Applies(config: Config, s: Store, snapshot: Snapshot, i: Id) {
    Adopts(config, s, snapshot, i) || ClosesDown(config, s, snapshot, i)
  }

  ghost predicate SnapshotTaken(config: Config, s: Store, snapshot: Snapshot) {
    Foreign(s, snapshot) || exists i :: Applies(config, s, snapshot, i)
  }

  /** The delivery of an invoice to row i, whose customer is the snapshot's once it is applied. */
  function ToRow(s: Store, i: Id, customer: Option<string>, invoice: Invoice, e: Event): Delivery
    requires i in s.subscriptions
  {
    Delivery(invoice, Holder(i, s.subscriptions[i].business, customer), e.id, e.time)
  }

  /** What becomes of an invoice whose subscription the provider describes, or cannot be asked about. */
  ghost predicate InvoiceEnds(config: Config, s: Store, invoice: Invoice, remote: string, e: Event, answer: Option<Snapshot>, outcome: Invoices.Outcome) {
    match answer
    case Some(snapshot) =>
      if Foreign(s, snapshot) then outcome == Skipped
      else exists i :: Applies(config, s, snapshot, i) && outcome == Upsert(Local(s, invoice.id), ToRow(s, i, snapshot.customer, invoice, e))
    case None =>
      exists i :: HeldBy(s, i, remote) && outcome == Upsert(Local(s, invoice.id), ToRow(s, i, s.subscriptions[i].customer, invoice, e))
  }

  /** The event can be taken, and is then recorded as processed or as ignored. */
  ghost predicate Taken(config: Config, s: Store, e: Event, answer: Option<Snapshot>, processed: bool) {
    match e.body
    case SubscriptionChanged(true, changed) => SnapshotTaken(config, s, changed) && processed == !Foreign(s, changed)
    case SubscriptionChanged(false, changed) =>
      changed.id.Some? && answer.Some? && SnapshotTaken(config, s, answer.value) && processed == !Foreign(s, answer.value)
    case CheckoutEnded(ended, expired) =>
      if ended.metadata.checkout == Missing then !processed
      else processed && exists id :: BillingDecisions.Names(config, s, ended, id) && (expired || (ended.customer.Some? && ended.subscription.Some?))
    case InvoiceChanged(invoice, remote) =>
      if remote == None then !processed
      else exists outcome :: InvoiceEnds(config, s, invoice, remote.value, e, answer, outcome) && !outcome.Refused? && processed == outcome.Stored?
    case Unhandled => !processed
  }

  /** A usable event is taken once, exactly when its body can be taken; an event that is not leaves every table alone. */
  lemma ProcessesExactlyWhen(config: Config, s: Store, e: Event, answer: Option<Snapshot>, now: Time, processed: bool)
    requires BillingInv(s)
    ensures var (t, receipt) := Process(config, s, e, answer, now);
      && (!e.usable ==> receipt == Rejected && t == s)
      && (e.usable && e.id in s.events ==> receipt == Duplicate && t == s)
      && (e.usable && e.id !in s.events ==>
            (receipt == Accepted && e.id in t.events && t.events[e.id] == processed <==> Taken(config, s, e, answer, processed)))
      && (receipt != Accepted ==> t == s)
  {
    hide BillingInv, Sync, EndCheckout, Upsert, Taken;
    if e.usable && e.id !in s.events {
      match e.body {
        case SubscriptionChanged(deleted, changed) => SubscriptionTaken(config, s, e, answer, now, processed);
        case CheckoutEnded(ended, expired) => CheckoutTaken(config, s, e, answer, now, processed);
        case InvoiceChanged(invoice, remote) => InvoiceTaken(config, s, e, answer, now, processed);
        case Unhandled => assert Taken(config, s, e, answer, processed) <==> !processed by { UnhandledTaken(config, s, e, answer, processed); }
      }
    }
  }

  lemma UnhandledTaken(config: Config, s: Store, e: Event, answer: Option<Snapshot>, processed: bool)
    requires e.body.Unhandled?
    ensures Taken(config, s, e, answer, processed) <==> !processed
  {
  }

  /** A synchronization succeeds for exactly the snapshots that are taken. */
  lemma SyncTaken(config: Config, s: Store, snapshot: Snapshot, now: Time)
    requires BillingInv(s)
    ensures var r := Sync(config, s, snapshot, now);
      && (r == Unrelated <==> Foreign(s, snapshot))
      && (r.SyncedTo? ==> Applies(config, s, snapshot, r.id))
      && (forall i :: Applies(config, s, snapshot, i) ==> r.SyncedTo? && r.id == i)
      && (r.SyncedTo? ==> r.store.events == s.events)
  {
    var r := Sync(config, s, snapshot, now);
    hide BillingInv, Sync, Adopts, ClosesDown, Evolves;
    SyncKeeps(config, s, snapshot, now);
    SyncsExactlyWhen(config, s, snapshot, now, if r.SyncedTo? then r.id else 0);
    forall i | Applies(config, s, snapshot, i) ensures r.SyncedTo? && r.id == i {
      SyncsExactlyWhen(config, s, snapshot, now, i);
    }
  }

  lemma SubscriptionTaken(config: Config, s: Store, e: Event, answer: Option<Snapshot>, now: Time, processed: bool)
    requires BillingInv(s) && e.usable && e.id !in s.events && e.body.SubscriptionChanged?
    ensures var (t, receipt) := Process(config, s, e, answer, now);
      receipt == Accepted && e.id in t.events && t.events[e.id] == processed <==> Taken(config, s, e, answer, processed)
  {
    hide BillingInv, Sync, Foreign, Applies;
    var SubscriptionChanged(deleted, changed) := e.body;
    if deleted {
      SyncTaken(config, s, changed, now);
    } else if answer.Some? {
      SyncTaken(config, s, answer.value, now);
    }
  }

  /** After a synchronization the row has the snapshot's customer and its own business, and no invoice has changed. */
  lemma SyncedHolder(config: Config, s: Store, snapshot: Snapshot, now: Time)
    requires BillingInv(s) && Sync(config, s, snapshot, now).SyncedTo?
    ensures var SyncedTo(i, t) := Sync(config, s, snapshot, now);
      && i in s.subscriptions && i in t.subscriptions
      && t.subscriptions[i].business == s.subscriptions[i].business && t.subscriptions[i].customer == snapshot.customer
      && t.invoices == s.invoices && t.events == s.events
  {
    SyncTaken(config, s, snapshot, now);
    SyncsExactlyWhen(config, s, snapshot, now, Sync(config, s, snapshot, now).id);
    hide BillingInv, Sync;
  }

  /** The effect of an invoice event, in terms of the delivery it makes. */
  lemma InvoiceEffect(config: Config, s: Store, e: Event, answer: Option<Snapshot>, now: Time)
    requires BillingInv(s) && e.body.InvoiceChanged? && e.body.remote.Some?
    ensures var InvoiceChanged(invoice, remote) := e.body;
      forall outcome | InvoiceEnds(config, s, invoice, remote.value, e, answer, outcome) ::
        var effect := EffectOf(config, s, e, answer, now);
        if outcome.Refused? then effect.Failed?
        else effect.Done? && effect.processed == outcome.Stored? && effect.store.events == s.events
    ensures var InvoiceChanged(invoice, remote) := e.body;
      (forall outcome :: !InvoiceEnds(config, s, invoice, remote.value, e, answer, outcome)) ==> EffectOf(config, s, e, answer, now).Failed?
  {
    hide BillingInv, Sync, Upsert, Foreign, Applies, FindRemote;
    var InvoiceChanged(invoice, remote) := e.body;
    if answer.Some? {
      SyncTaken(config, s, answer.value, now);
      if Sync(config, s, answer.value, now).SyncedTo? {
        SyncedHolder(config, s, answer.value, now);
        var i := Sync(config, s, answer.value, now).id;
        assert InvoiceEnds(config, s, invoice, remote.value, e, answer,
                           Upsert(Local(s, invoice.id), ToRow(s, i, answer.value.customer, invoice, e)));
      } else if Foreign(s, answer.value) {
        assert InvoiceEnds(config, s, invoice, remote.value, e, answer, Skipped);
      }
    } else {
      RemoteFree(s, remote.value);
      FoundHolds(s, remote.value);
      if FindRemote(s, remote.value).Some? {
        var i := FindRemote(s, remote.value).value;
        assert InvoiceEnds(config, s, invoice, remote.value, e, answer,
                           Upsert(Local(s, invoice.id), ToRow(s, i, s.subscriptions[i].customer, invoice, e)));
      }
    }
  }

  lemma InvoiceTaken(config: Config, s: Store, e: Event, answer: Option<Snapshot>, now: Time, processed: bool)
    requires BillingInv(s) && e.usable && e.id !in s.events && e.body.InvoiceChanged?
    ensures var (t, receipt) := Process(config, s, e, answer, now);
      receipt == Accepted && e.id in t.events && t.events[e.id] == processed <==> Taken(config, s, e, answer, processed)
  {
    var InvoiceChanged(invoice, remote) := e.body;
    if remote.Some? {
      InvoiceEffect(config, s, e, answer, now);
      hide InvoiceEnds, EffectOf, BillingInv;
      if forall outcome :: !InvoiceEnds(config, s, invoice, remote.value, e, answer, outcome) {
      } else {
        var outcome :| InvoiceEnds(config, s, invoice, remote.value, e, answer, outcome);
        assert EffectOf(config, s, e, answer, now).Done? <==> !outcome.Refused?;
      }
    }
  }

  lemma CheckoutTaken(config: Config, s: Store, e: Event, answer: Option<Snapshot>, now: Time, processed: bool)
    requires e.usable && e.id !in s.events && e.body.CheckoutEnded?
    ensures var (t, receipt) := Process(config, s, e, answer, now);
      receipt == Accepted && e.id in t.events && t.events[e.id] == processed <==> Taken(config, s, e, answer, processed)
  {
    var CheckoutEnded(ended, expired) := e.body;
    BillingDecisions.EndsExactlyWhen(config, s, ended, expired, now, if ended.metadata.checkout.Named? then ended.metadata.checkout.id else 0);
    EndOutcome(config, s, ended, expired, now);
    NamesMetadata(config, s, ended);
    hide EndCheckout, BillingDecisions.Names;
  }

  lemma NamesMetadata(config: Config, s: Store, ended: CheckoutObject)
    ensures forall id | BillingDecisions.Names(config, s, ended, id) :: ended.metadata.checkout == Named(id)
  {
  }

  lemma EndOutcome(config: Config, s: Store, ended: CheckoutObject, expired: bool, now: Time)
    ensures EndCheckout(config, s, ended, expired, now).Done? ==>
      && EndCheckout(config, s, ended, expired, now).store.events == s.events
      && EndCheckout(config, s, ended, expired, now).processed == (ended.metadata.checkout != Missing)
  {
  }
}
