/** Checkouts, subscriptions and webhook events: one function a transaction. */
module Billing {
  import opened CreditModel
  import opened Invoices

  // ---------------------------------------------------------------- rows

  datatype CheckoutStatus = Pending | Opened | Complete | Expired

  datatype Checkout = Checkout(
    business: Id,
    subscription: Id,
    plan: Id,
    key: string,
    status: CheckoutStatus,
    session: Option<string>,
    url: Option<string>,
    expires: Option<Time>,
    completed: Option<Time>,
    customer: Option<string>,
    remote: Option<string>)

  datatype SubscriptionStatus =
    | Trialing | Active | PastDue | Unpaid | Paused | Incomplete | IncompleteExpired | Canceled

  datatype Subscription = Subscription(
    business: Id,
    plan: Option<Id>,
    status: SubscriptionStatus,
    customer: Option<string>,
    remote: Option<string>,
    price: Option<string>)

  datatype Store = Store(
    checkouts: map<Id, Checkout>,
    subscriptions: map<Id, Subscription>,
    invoices: map<string, Row>,
    events: map<string, bool>,
    next: Id)

  const EMPTY_STORE: Store := Store(map[], map[], map[], map[], 0)

  predicate Ongoing(c: Checkout) { c.status == Pending || c.status == Opened }

  predicate Current(s: Subscription) { s.status != IncompleteExpired && s.status != Canceled }

  /** The newest row below n that satisfies the filter; ids are handed out in creation order. */
  function Newest(n: Id, matching: Id -> bool): (found: Option<Id>)
    ensures found.Some? ==> found.value < n && matching(found.value)
    ensures found.None? ==> forall i: Id :: i < n ==> !matching(i)
  {
    if n == 0 then None else if matching(n - 1) then Some(n - 1) else Newest(n - 1, matching)
  }

  function ByKey(s: Store, business: Id, key: string): Id -> bool {
    (i: Id) => i in s.checkouts && s.checkouts[i].business == business && s.checkouts[i].key == key
  }

  function ByOngoing(s: Store, business: Id): Id -> bool {
    (i: Id) => i in s.checkouts && s.checkouts[i].business == business && Ongoing(s.checkouts[i])
  }

  function ByRemote(s: Store, remote: string): Id -> bool {
    (i: Id) => i in s.subscriptions && s.subscriptions[i].remote == Some(remote)
  }

  function FindKey(s: Store, business: Id, key: string): Option<Id> { Newest(s.next, ByKey(s, business, key)) }

  function FindOngoing(s: Store, business: Id): Option<Id> { Newest(s.next, ByOngoing(s, business)) }

  function FindRemote(s: Store, remote: string): Option<Id> { Newest(s.next, ByRemote(s, remote)) }

  function ByCurrent(s: Store, business: Id): Id -> bool {
    (i: Id) => i in s.subscriptions && s.subscriptions[i].business == business && Current(s.subscriptions[i])
  }

  function ByPaid(s: Store, business: Id, subscription: Id): Id -> bool {
    (i: Id) => i in s.checkouts && s.checkouts[i].business == business
      && s.checkouts[i].subscription == subscription && s.checkouts[i].status == Complete && s.checkouts[i].remote.Some?
  }

  function FindCurrent(s: Store, business: Id): Option<Id> { Newest(s.next, ByCurrent(s, business)) }

  function FindPaid(s: Store, business: Id, subscription: Id): Option<Id> { Newest(s.next, ByPaid(s, business, subscription)) }

  // ---------------------------------------------------------------- checkout attempts

  function Lapsed(c: Checkout, business: Id, now: Time): Checkout {
    if c.business == business && Ongoing(c) && c.expires.Some? && c.expires.value <= now then c.(status := Expired) else c
  }

  function ExpireStale(s: Store, business: Id, now: Time): Store {
    s.(checkouts := map i | i in s.checkouts :: Lapsed(s.checkouts[i], business, now))
  }

  datatype Prepared = Created(id: Id) | Existing(id: Id) | InProgress(id: Id) | Conflict

  /** Only a created or an existing attempt commits; every error leaves the store as it was. */
  function Prepare(s: Store, business: Id, plan: Id, key: string, now: Time, expires: Time): (Store, Prepared) {
    var t := ExpireStale(s, business, now);
    var existing := FindKey(t, business, key);
    if existing.Some? then
      var c := t.checkouts[existing.value];
      if c.plan != plan || c.subscription !in t.subscriptions || t.subscriptions[c.subscription].business != business
      then (s, Conflict)
      else (t, Existing(existing.value))
    else
      var ongoing := FindOngoing(t, business);
      if ongoing.Some? then (s, InProgress(ongoing.value))
      else
        var current := FindCurrent(t, business);
        if current.Some? && t.subscriptions[current.value].remote.Some? then (s, Conflict)
        else if current.Some? && FindPaid(t, business, current.value).Some? then (s, Conflict)
        else
          var u := if current.Some? then t else WithSubscription(t, business);
          var holder := if current.Some? then current.value else t.next;
          (WithCheckout(u, Checkout(business, holder, plan, key, Pending, None, None, Some(expires), None, None, None)), Created(u.next))
  }

  function WithSubscription(s: Store, business: Id): Store {
    s.(subscriptions := s.subscriptions[s.next := Subscription(business, None, Incomplete, None, None, None)], next := s.next + 1)
  }

  function WithCheckout(s: Store, c: Checkout): Store {
    s.(checkouts := s.checkouts[s.next := c], next := s.next + 1)
  }

  /** The partial unique index: another checkout of the business is pending or open. */
  predicate IndexTaken(s: Store, id: Id, business: Id) {
    exists j | j in s.checkouts :: j != id && s.checkouts[j].business == business && Ongoing(s.checkouts[j])
  }

  /**
    The last transaction of a checkout request. The session read the attempt as pending before it called the
    provider; `refreshes` says whether the locked read replaces that image by the committed row. A row that the
    index on ongoing checkouts refuses rolls the transaction back.
    */
  function Publish(s: Store, id: Id, session: string, url: string, expires: Time, refreshes: bool): Store {
    if id !in s.checkouts then s
    else
      var c := s.checkouts[id];
      var seen := if refreshes then c.status else Pending;
      var row := c.(session := Some(session), url := Some(url), expires := Some(expires),
                    status := if seen == Pending then Opened else c.status);
      if Ongoing(row) && IndexTaken(s, id, c.business) then s else s.(checkouts := s.checkouts[id := row])
  }

  /** The provider refused the attempt. */
  function Reject(s: Store, id: Id, now: Time, refreshes: bool): Store {
    if id !in s.checkouts then s
    else
      var c := s.checkouts[id];
      if !refreshes || (c.status == Pending && c.session == None && c.url == None)
      then s.(checkouts := s.checkouts[id := c.(status := Expired, expires := Some(now))])
      else s
  }

  // ---------------------------------------------------------------- provider objects

  datatype MetaId = Missing | Malformed | Named(id: Id)

  datatype Metadata = Metadata(
    business: MetaId,
    subscription: MetaId,
    plan: Option<string>,
    checkout: MetaId,
    environment: Option<string>)

  predicate AnyKey(m: Metadata) {
    m.business != Missing || m.subscription != Missing || m.plan.Some? || m.checkout != Missing || m.environment.Some?
  }

  predicate AllKeys(m: Metadata) {
    m.business != Missing && m.subscription != Missing && m.plan.Some? && m.checkout != Missing && m.environment.Some?
  }

  datatype Plan = Plan(id: Id, code: string)

  datatype Config = Config(environment: string, prices: map<string, Plan>)

  datatype RemoteStatus = NoStatus | Unsupported | Known(status: SubscriptionStatus)

  datatype Snapshot = Snapshot(
    id: Option<string>,
    customer: Option<string>,
    metadata: Metadata,
    price: Option<string>,
    status: RemoteStatus)

  datatype CheckoutObject = CheckoutObject(
    id: Option<string>,
    metadata: Metadata,
    customer: Option<string>,
    subscription: Option<string>)

  /** Success carries the new rows and whether the event is reported as processed or as ignored. */
  datatype Effect = Failed | Done(store: Store, processed: bool)

  // ---------------------------------------------------------------- subscription synchronization

  datatype Synced = SyncFailed | Unrelated | SyncedTo(id: Id, store: Store)

  predicate MetadataFits(config: Config, sub: Subscription, m: Metadata) {
    && (m.business == Missing || m.business == Named(sub.business))
    && (m.environment == None || m.environment == Some(config.environment))
  }

  function FailClosed(s: Store, id: Id, remote: string, customer: string, price: string): Store
    requires id in s.subscriptions
  {
    s.(subscriptions := s.subscriptions[id := s.subscriptions[id].(
      plan := None, status := Incomplete, customer := Some(customer), remote := Some(remote), price := Some(price))])
  }

  /** The local row for a remote subscription: the one that has its id, or the one its metadata names. */
  function FindLocal(config: Config, s: Store, existing: Option<Id>, m: Metadata, plan: Plan): Option<Id> {
    if existing.Some? then
      if m.plan.Some? && m.plan != Some(plan.code) then None else existing
    else if !AllKeys(m) || m.environment != Some(config.environment) || m.plan != Some(plan.code) then None
    else if !m.business.Named? || !m.subscription.Named? || !m.checkout.Named? then None
    else
      var (b, i, c) := (m.business.id, m.subscription.id, m.checkout.id);
      if i !in s.subscriptions || s.subscriptions[i].business != b then None
      else if c !in s.checkouts || s.checkouts[c].business != b then None
      else if s.checkouts[c].subscription != i || s.checkouts[c].plan != plan.id then None
      else Some(i)
  }

  function Completed(c: Checkout, customer: string, remote: string, now: Time): Checkout {
    c.(status := Complete, completed := Some(if c.completed.Some? then c.completed.value else now),
       customer := Some(customer), remote := Some(remote))
  }

  function Sync(config: Config, s: Store, snapshot: Snapshot, now: Time): Synced {
    if snapshot.id == None || snapshot.customer == None then SyncFailed
    else
      var (remote, customer, m) := (snapshot.id.value, snapshot.customer.value, snapshot.metadata);
      var existing := FindRemote(s, remote);
      if existing.None? && !AnyKey(m) then Unrelated
      else if snapshot.price == None then SyncFailed
      else if existing.Some? && !MetadataFits(config, s.subscriptions[existing.value], m) then SyncFailed
      else if snapshot.price.value !in config.prices then
        if existing.None? then SyncFailed
        else SyncedTo(existing.value, FailClosed(s, existing.value, remote, customer, snapshot.price.value))
      else
        var plan := config.prices[snapshot.price.value];
        var local := FindLocal(config, s, existing, m, plan);
        if local.None? then SyncFailed
        else
          var sub := s.subscriptions[local.value];
          if sub.customer.Some? && sub.customer != Some(customer) then SyncFailed
          else if sub.remote.Some? && sub.remote != Some(remote) then SyncFailed
          else
            match snapshot.status
            case NoStatus => SyncFailed
            case Unsupported =>
              if existing.Some? then SyncedTo(local.value, FailClosed(s, local.value, remote, customer, snapshot.price.value))
              else SyncFailed
            case Known(status) =>
              var t := s.(subscriptions := s.subscriptions[local.value := sub.(
                plan := Some(plan.id), status := status, customer := Some(customer), remote := Some(remote), price := snapshot.price)]);
              if m.checkout == Missing then SyncedTo(local.value, t)
              else if !m.checkout.Named? || m.checkout.id !in t.checkouts then SyncFailed
              else
                var c := t.checkouts[m.checkout.id];
                if c.business != sub.business || c.subscription != local.value then SyncFailed
                else SyncedTo(local.value, t.(checkouts := t.checkouts[m.checkout.id := Completed(c, customer, remote, now)]))
  }

  // ---------------------------------------------------------------- checkout events

  function EndCheckout(config: Config, s: Store, ended: CheckoutObject, expired: bool, now: Time): Effect {
    var m := ended.metadata;
    if m.checkout == Missing then Done(s, false)
    else if m.environment != Some(config.environment) then Failed
    else if !m.checkout.Named? || !m.business.Named? || !m.subscription.Named? then Failed
    else if m.checkout.id !in s.checkouts || s.checkouts[m.checkout.id].business != m.business.id then Failed
    else
      var c := s.checkouts[m.checkout.id];
      if c.subscription != m.subscription.id || m.plan == None || ended.id == None then Failed
      else if c.session.Some? && c.session != ended.id then Failed
      else
        var c := c.(session := ended.id);
        if expired then
          Done(s.(checkouts := s.checkouts[m.checkout.id := if c.status == Complete then c else c.(status := Expired)]), true)
        else if ended.customer == None || ended.subscription == None then Failed
        else Done(s.(checkouts := s.checkouts[m.checkout.id := Completed(c, ended.customer.value, ended.subscription.value, now)]), true)
  }

  // ---------------------------------------------------------------- invoice events

  function Local(s: Store, invoice: string): Option<Row> {
    if invoice in s.invoices then Some(s.invoices[invoice]) else None
  }

  function DeliveryTo(s: Store, id: Id, invoice: Invoice, event: string, time: Time): Delivery
    requires id in s.subscriptions
  {
    Delivery(invoice, Holder(id, s.subscriptions[id].business, s.subscriptions[id].customer), event, time)
  }

  function StoreInvoice(s: Store, d: Delivery): Effect {
    match Upsert(Local(s, d.invoice.id), d)
    case Refused => Failed
    case Skipped => Done(s, false)
    case Stored(row) => Done(s.(invoices := s.invoices[d.invoice.id := row]), true)
  }

  /** The subscription an invoice belongs to, synchronized when the provider answers. */
  function ResolveHolder(config: Config, s: Store, remote: string, answer: Option<Snapshot>, now: Time): Synced {
    match answer
    case Some(snapshot) => Sync(config, s, snapshot, now)
    case None =>
      var existing := FindRemote(s, remote);
      if existing.None? then SyncFailed else SyncedTo(existing.value, s)
  }

  // ---------------------------------------------------------------- webhook events

  datatype Body =
    | SubscriptionChanged(deleted: bool, changed: Snapshot)
    | CheckoutEnded(checkout: CheckoutObject, expired: bool)
    | InvoiceChanged(invoice: Invoice, remote: Option<string>)
    | Unhandled

  /** `usable` is false when the event's own header fields fail validation. */
  datatype Event = Event(id: string, time: Time, usable: bool, body: Body)

  /** What the event's transaction does after the claim, with the provider's answer as an input. */
  function EffectOf(config: Config, s: Store, e: Event, answer: Option<Snapshot>, now: Time): Effect {
    match e.body
    case SubscriptionChanged(deleted, changed) =>
      if !deleted && (changed.id == None || answer == None) then Failed
      else
        var synced := Sync(config, s, if deleted then changed else answer.value, now);
        (match synced
         case SyncFailed => Failed
         case Unrelated => Done(s, false)
         case SyncedTo(_, t) => Done(t, true))
    case CheckoutEnded(ended, expired) => EndCheckout(config, s, ended, expired, now)
    case InvoiceChanged(invoice, remote) =>
      if remote == None then Done(s, false)
      else
        (match ResolveHolder(config, s, remote.value, answer, now)
         case SyncFailed => Failed
         case Unrelated => Done(s, false)
         case SyncedTo(id, t) =>
           if id !in t.subscriptions then Failed
           else StoreInvoice(t, DeliveryTo(t, id, invoice, e.id, e.time)))
    case Unhandled => Done(s, false)
  }

  datatype Receipt = Duplicate | Rejected | Accepted

  /** The claim, the effect and the result in one transaction; an error rolls all of it back. */
  function Process(config: Config, s: Store, e: Event, answer: Option<Snapshot>, now: Time): (Store, Receipt) {
    if !e.usable then (s, Rejected)
    else if e.id in s.events then (s, Duplicate)
    else
      match EffectOf(config, s, e, answer, now)
      case Failed => (s, Rejected)
      case Done(t, processed) => (t.(events := t.events[e.id := processed]), Accepted)
  }

  // ---------------------------------------------------------------- runs

  datatype Action =
    | Preparing(business: Id, plan: Id, key: string, now: Time, expires: Time)
    | Publishing(id: Id, session: string, url: string, expires: Time)
    | Rejecting(id: Id, now: Time)
    | Receiving(event: Event, answer: Option<Snapshot>, now: Time)
    | Syncing(expected: Id, snapshot: Snapshot, now: Time)

  function Step(config: Config, refreshes: bool, s: Store, a: Action): Store {
    match a
    case Preparing(business, plan, key, now, expires) => Prepare(s, business, plan, key, now, expires).0
    case Publishing(id, session, url, expires) => Publish(s, id, session, url, expires, refreshes)
    case Rejecting(id, now) => Reject(s, id, now, refreshes)
    case Receiving(e, answer, now) => Process(config, s, e, answer, now).0
    case Syncing(expected, snapshot, now) =>
      (match Sync(config, s, snapshot, now) case SyncedTo(id, t) => (if id == expected then t else s) case _ => s)
  }

  function Run(config: Config, refreshes: bool, s: Store, actions: seq<Action>): Store {
    if actions == [] then s
    else Step(config, refreshes, Run(config, refreshes, s, actions[..|actions| - 1]), actions[|actions| - 1])
  }
}
