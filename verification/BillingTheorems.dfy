/** What every billing transaction keeps, and what whole runs of them guarantee. */
module BillingTheorems {
  import opened CreditModel
  import opened Invoices
  import opened Billing

  type Checkouts = map<Id, Checkout>
  type Subscriptions = map<Id, Subscription>

  // ---------------------------------------------------------------- the invariant

  ghost predicate OneOngoing(cs: Checkouts) {
    forall i, j | i in cs && j in cs && cs[i].business == cs[j].business && Ongoing(cs[i]) && Ongoing(cs[j]) :: i == j
  }

  ghost predicate KeysUnique(cs: Checkouts) {
    forall i, j | i in cs && j in cs && cs[i].business == cs[j].business && cs[i].key == cs[j].key :: i == j
  }

  /** Which columns are filled in which status. */
  ghost predicate Shape(c: Checkout) {
    && (c.status == Pending ==> c.session == None && c.url == None)
    && (c.status == Opened ==> c.session.Some? && c.url.Some?)
    && (c.status == Complete ==> c.completed.Some? && c.customer.Some? && c.remote.Some?)
    && (Ongoing(c) ==> c.expires.Some?)
  }

  ghost predicate Shapes(cs: Checkouts) { forall i | i in cs :: Shape(cs[i]) }

  ghost predicate CheckoutsInv(cs: Checkouts) { OneOngoing(cs) && KeysUnique(cs) && Shapes(cs) }

  ghost predicate RemotesUnique(subs: Subscriptions) {
    forall i, j | i in subs && j in subs && subs[i].remote.Some? && subs[i].remote == subs[j].remote :: i == j
  }

  ghost predicate Linked(cs: Checkouts, subs: Subscriptions) {
    forall i | i in cs :: cs[i].subscription in subs && subs[cs[i].subscription].business == cs[i].business
  }

  ghost predicate Numbered(s: Store) {
    && (forall i | i in s.checkouts :: i < s.next)
    && (forall i | i in s.subscriptions :: i < s.next)
  }

  ghost predicate BillingInv(s: Store) {
    && CheckoutsInv(s.checkouts)
    && RemotesUnique(s.subscriptions)
    && Linked(s.checkouts, s.subscriptions)
    && Numbered(s)
  }

  // ---------------------------------------------------------------- how rows may change

  /** A checkout keeps its identity and its completion time. */
  ghost predicate Follows(a: Checkout, b: Checkout) {
    && b.(status := a.status, session := a.session, url := a.url, expires := a.expires, completed := a.completed,
          customer := a.customer, remote := a.remote) == a
    && (a.completed.Some? ==> b.completed == a.completed)
  }

  ghost predicate CheckoutsFollow(a: Checkouts, b: Checkouts) {
    forall i | i in a :: i in b && Follows(a[i], b[i])
  }

  ghost predicate RowForward(a: Row, b: Row) {
    && a.subscription == b.subscription && a.business == b.business
    && (a.time < b.time || (a.time == b.time && StatusRank(a.status) <= StatusRank(b.status)))
  }

  ghost predicate InvoicesFollow(a: map<string, Row>, b: map<string, Row>) {
    forall k | k in a :: k in b && RowForward(a[k], b[k])
  }

  ghost predicate SubscriptionsFollow(a: Subscriptions, b: Subscriptions) {
    forall i | i in a :: i in b && b[i].business == a[i].business
  }

  ghost predicate EventsFollow(a: map<string, bool>, b: map<string, bool>) {
    forall e | e in a :: e in b && b[e] == a[e]
  }

  ghost predicate Evolves(s: Store, t: Store) {
    && CheckoutsFollow(s.checkouts, t.checkouts)
    && SubscriptionsFollow(s.subscriptions, t.subscriptions)
    && InvoicesFollow(s.invoices, t.invoices)
    && EventsFollow(s.events, t.events)
    && s.next <= t.next
  }

  lemma EvolvesTrans(s: Store, t: Store, u: Store)
    requires Evolves(s, t) && Evolves(t, u)
    ensures Evolves(s, u)
  {
    forall k | k in s.invoices ensures k in u.invoices && RowForward(s.invoices[k], u.invoices[k]) {
      assert RowForward(s.invoices[k], t.invoices[k]) && RowForward(t.invoices[k], u.invoices[k]);
    }
    forall i | i in s.checkouts ensures i in u.checkouts && Follows(s.checkouts[i], u.checkouts[i]) {
      assert Follows(s.checkouts[i], t.checkouts[i]) && Follows(t.checkouts[i], u.checkouts[i]);
    }
  }

  lemma EvolvesSelf(s: Store)
    ensures Evolves(s, s)
  {
  }

  // ---------------------------------------------------------------- one row changes

  /** No other checkout of the same business is ongoing. */
  ghost predicate OnlyOngoing(cs: Checkouts, i: Id)
    requires i in cs
  {
    forall j | j in cs && j != i && cs[j].business == cs[i].business :: !Ongoing(cs[j])
  }

  lemma UpdateKeeps(cs: Checkouts, subs: Subscriptions, i: Id, c: Checkout)
    requires CheckoutsInv(cs) && Linked(cs, subs) && i in cs
    requires Follows(cs[i], c) && Shape(c) && (Ongoing(c) ==> Ongoing(cs[i]) || OnlyOngoing(cs, i))
    ensures CheckoutsInv(cs[i := c]) && Linked(cs[i := c], subs) && CheckoutsFollow(cs, cs[i := c])
  {
    hide Ongoing, Shape;
  }

  lemma LapsedFollows(c: Checkout, business: Id, now: Time)
    requires Shape(c)
    ensures var d := Lapsed(c, business, now); Follows(c, d) && Shape(d) && (Ongoing(d) ==> Ongoing(c))
  {
  }

  lemma ExpireCheckouts(s: Store, business: Id, now: Time)
    requires CheckoutsInv(s.checkouts) && Linked(s.checkouts, s.subscriptions)
    ensures var t := ExpireStale(s, business, now);
      CheckoutsInv(t.checkouts) && Linked(t.checkouts, s.subscriptions) && CheckoutsFollow(s.checkouts, t.checkouts)
  {
    hide Lapsed, Shape, Ongoing;
    forall i | i in s.checkouts ensures var d := Lapsed(s.checkouts[i], business, now);
      Follows(s.checkouts[i], d) && Shape(d) && (Ongoing(d) ==> Ongoing(s.checkouts[i])) {
      LapsedFollows(s.checkouts[i], business, now);
    }
  }

  lemma ExpireKeeps(s: Store, business: Id, now: Time)
    requires BillingInv(s)
    ensures BillingInv(ExpireStale(s, business, now)) && Evolves(s, ExpireStale(s, business, now))
  {
    hide CheckoutsInv, Linked, RemotesUnique, CheckoutsFollow, Lapsed;
    ExpireCheckouts(s, business, now);
  }

  lemma InsertKeeps(cs: Checkouts, subs: Subscriptions, i: Id, c: Checkout)
    requires CheckoutsInv(cs) && Linked(cs, subs) && i !in cs && Shape(c)
    requires c.subscription in subs && subs[c.subscription].business == c.business
    requires forall j | j in cs && cs[j].business == c.business :: cs[j].key != c.key && !Ongoing(cs[j])
    ensures CheckoutsInv(cs[i := c]) && Linked(cs[i := c], subs) && CheckoutsFollow(cs, cs[i := c])
  {
    hide Shape, Ongoing;
  }

  lemma NewSubscription(s: Store, business: Id)
    requires BillingInv(s)
    ensures BillingInv(WithSubscription(s, business)) && Evolves(s, WithSubscription(s, business))
  {
    hide CheckoutsInv;
  }

  lemma PrepareKeeps(s: Store, business: Id, plan: Id, key: string, now: Time, expires: Time)
    requires BillingInv(s)
    ensures var t := Prepare(s, business, plan, key, now, expires).0; BillingInv(t) && Evolves(s, t)
  {
    hide BillingInv, Evolves, ExpireStale, FindKey, FindOngoing, FindCurrent, FindPaid, WithSubscription, WithCheckout;
    var r := Prepare(s, business, plan, key, now, expires);
    EvolvesSelf(s);
    ExpireKeeps(s, business, now);
    if r.1.Created? {
      var t := ExpireStale(s, business, now);
      var current := FindCurrent(t, business);
      NewSubscription(t, business);
      EvolvesSelf(t);
      var u := if current.Some? then t else WithSubscription(t, business);
      var holder := if current.Some? then current.value else t.next;
      EvolvesTrans(s, t, u);
      NewHolder(t, business);
      NothingElse(t, business, key);
      var c := Checkout(business, holder, plan, key, Pending, None, None, Some(expires), None, None, None);
      CreateKeeps(u, c);
      EvolvesTrans(s, u, WithCheckout(u, c));
    }
  }

  lemma NewHolder(t: Store, business: Id)
    ensures WithSubscription(t, business).checkouts == t.checkouts
    ensures t.next in WithSubscription(t, business).subscriptions
    ensures WithSubscription(t, business).subscriptions[t.next].business == business
    ensures var current := FindCurrent(t, business);
      current.Some? ==> current.value in t.subscriptions && t.subscriptions[current.value].business == business
  {
  }

  lemma CreateKeeps(u: Store, c: Checkout)
    requires BillingInv(u) && c.subscription in u.subscriptions && u.subscriptions[c.subscription].business == c.business
    requires c.status == Pending && c.session == None && c.url == None && c.completed == None && c.expires.Some?
    requires forall j | j in u.checkouts && u.checkouts[j].business == c.business :: u.checkouts[j].key != c.key && !Ongoing(u.checkouts[j])
    ensures BillingInv(WithCheckout(u, c)) && Evolves(u, WithCheckout(u, c))
  {
    PendingShape(c);
    hide CheckoutsInv, Linked, Shape, RemotesUnique, Ongoing, CheckoutsFollow;
    InsertKeeps(u.checkouts, u.subscriptions, u.next, c);
  }

  lemma PendingShape(c: Checkout)
    requires c.status == Pending && c.session == None && c.url == None && c.completed == None && c.expires.Some?
    ensures Shape(c)
  {
  }

  lemma NothingElse(t: Store, business: Id, key: string)
    requires BillingInv(t) && FindKey(t, business, key).None? && FindOngoing(t, business).None?
    ensures forall j | j in t.checkouts && t.checkouts[j].business == business :: t.checkouts[j].key != key && !Ongoing(t.checkouts[j])
  {
    forall j | j in t.checkouts && t.checkouts[j].business == business ensures t.checkouts[j].key != key && !Ongoing(t.checkouts[j]) {
      assert !ByKey(t, business, key)(j) && !ByOngoing(t, business)(j);
    }
  }

  /** One checkout row of a store moves forward. */
  lemma MoveKeeps(s: Store, i: Id, c: Checkout)
    requires BillingInv(s) && i in s.checkouts
    requires Follows(s.checkouts[i], c) && Shape(c)
    requires Ongoing(c) ==> Ongoing(s.checkouts[i]) || OnlyOngoing(s.checkouts, i)
    ensures BillingInv(s.(checkouts := s.checkouts[i := c])) && Evolves(s, s.(checkouts := s.checkouts[i := c]))
  {
    UpdateKeeps(s.checkouts, s.subscriptions, i, c);
    hide CheckoutsInv, Linked, CheckoutsFollow, RemotesUnique, Follows, Shape, OnlyOngoing;
  }

  lemma PublishKeeps(s: Store, id: Id, session: string, url: string, expires: Time, refreshes: bool)
    requires BillingInv(s)
    ensures var t := Publish(s, id, session, url, expires, refreshes); BillingInv(t) && Evolves(s, t)
  {
    EvolvesSelf(s);
    if id in s.checkouts && Publish(s, id, session, url, expires, refreshes) != s {
      ShapeOf(s, id);
      hide BillingInv, Evolves;
      MoveKeeps(s, id, Publish(s, id, session, url, expires, refreshes).checkouts[id]);
    }
  }

  lemma RejectKeeps(s: Store, id: Id, now: Time, refreshes: bool)
    requires BillingInv(s)
    ensures var t := Reject(s, id, now, refreshes); BillingInv(t) && Evolves(s, t)
  {
    EvolvesSelf(s);
    if id in s.checkouts && Reject(s, id, now, refreshes) != s {
      ShapeOf(s, id);
      hide BillingInv, Evolves;
      MoveKeeps(s, id, Reject(s, id, now, refreshes).checkouts[id]);
    }
  }

  /** A completion is legal from every status. */
  lemma CompletedFollows(c: Checkout, customer: string, remote: string, now: Time)
    requires Shape(c)
    ensures Follows(c, Completed(c, customer, remote, now)) && Shape(Completed(c, customer, remote, now))
    ensures !Ongoing(Completed(c, customer, remote, now))
  {
  }

  lemma EndKeeps(config: Config, s: Store, ended: CheckoutObject, expired: bool, now: Time)
    requires BillingInv(s)
    ensures match EndCheckout(config, s, ended, expired, now)
      case Failed => true
      case Done(t, _) => BillingInv(t) && Evolves(s, t) && t.events == s.events && t.invoices == s.invoices
  {
    EvolvesSelf(s);
    var r := EndCheckout(config, s, ended, expired, now);
    if r.Done? && ended.metadata.checkout != Missing {
      var id := ended.metadata.checkout.id;
      var c := s.checkouts[id];
      assert Shape(c);
      if !expired {
        EndedShape(c, ended.id, ended.customer.value, ended.subscription.value, now);
      }
      MoveKeeps(s, id, r.store.checkouts[id]);
    }
  }

  lemma EndedShape(c: Checkout, session: Option<string>, customer: string, remote: string, now: Time)
    requires Shape(c)
    ensures var d := Completed(c.(session := session), customer, remote, now); Follows(c, d) && Shape(d) && !Ongoing(d)
  {
  }

  // ---------------------------------------------------------------- synchronization

  /** One subscription row changes, taking a remote id that no other row has. */
  lemma AttachKeeps(s: Store, id: Id, sub: Subscription, remote: string)
    requires BillingInv(s) && id in s.subscriptions && sub.business == s.subscriptions[id].business
    requires sub.remote == Some(remote)
    requires forall j | j in s.subscriptions && s.subscriptions[j].remote == Some(remote) :: j == id
    ensures var t := s.(subscriptions := s.subscriptions[id := sub]); BillingInv(t) && Evolves(s, t)
  {
    hide CheckoutsInv;
  }

  lemma RemoteFree(s: Store, remote: string)
    requires BillingInv(s)
    ensures match FindRemote(s, remote)
      case None => forall j | j in s.subscriptions :: s.subscriptions[j].remote != Some(remote)
      case Some(id) => id in s.subscriptions && forall j | j in s.subscriptions && s.subscriptions[j].remote == Some(remote) :: j == id
  {
    hide CheckoutsInv, Linked;
    forall j | j in s.subscriptions && s.subscriptions[j].remote == Some(remote) ensures FindRemote(s, remote) == Some(j) {
      assert ByRemote(s, remote)(j);
    }
  }

  lemma FoundLocal(config: Config, s: Store, existing: Option<Id>, m: Metadata, plan: Plan)
    requires existing.Some? ==> existing.value in s.subscriptions
    ensures var r := FindLocal(config, s, existing, m, plan);
      r.Some? ==> r.value in s.subscriptions && (existing.Some? ==> r == existing)
  {
  }

  lemma SyncKeeps(config: Config, s: Store, snapshot: Snapshot, now: Time)
    requires BillingInv(s)
    ensures match Sync(config, s, snapshot, now)
      case SyncedTo(id, t) => BillingInv(t) && Evolves(s, t) && id in t.subscriptions && t.events == s.events && t.invoices == s.invoices
      case _ => true
  {
    if Sync(config, s, snapshot, now).SyncedTo? {
      var (remote, customer, m) := (snapshot.id.value, snapshot.customer.value, snapshot.metadata);
      var existing := FindRemote(s, remote);
      RemoteFree(s, remote);
      hide BillingInv, Evolves, FindRemote, MetadataFits, AnyKey;
      if snapshot.price.value !in config.prices {
        AttachKeeps(s, existing.value, s.subscriptions[existing.value].(
          plan := None, status := Incomplete, customer := Some(customer), remote := Some(remote), price := snapshot.price), remote);
      } else {
        var plan := config.prices[snapshot.price.value];
        FoundLocal(config, s, existing, m, plan);
        hide FindLocal;
        KnownPriceKeeps(config, s, snapshot, now, existing, plan);
      }
    }
  }

  lemma KnownPriceKeeps(config: Config, s: Store, snapshot: Snapshot, now: Time, existing: Option<Id>, plan: Plan)
    requires BillingInv(s) && Sync(config, s, snapshot, now).SyncedTo?
    requires snapshot.id.Some? && snapshot.customer.Some? && snapshot.price.Some?
    requires existing == FindRemote(s, snapshot.id.value)
    requires snapshot.price.value in config.prices && plan == config.prices[snapshot.price.value]
    ensures match Sync(config, s, snapshot, now)
      case SyncedTo(id, t) => BillingInv(t) && Evolves(s, t) && id in t.subscriptions && t.events == s.events && t.invoices == s.invoices
      case _ => true
  {
    var (remote, customer, m) := (snapshot.id.value, snapshot.customer.value, snapshot.metadata);
    RemoteFree(s, remote);
    FoundLocal(config, s, existing, m, plan);
    var local := FindLocal(config, s, existing, m, plan).value;
    var sub := s.subscriptions[local];
    hide BillingInv, Evolves, FindRemote, MetadataFits, AnyKey, FindLocal;
    match snapshot.status {
      case NoStatus =>
      case Unsupported =>
        AttachKeeps(s, local, sub.(
          plan := None, status := Incomplete, customer := Some(customer), remote := Some(remote), price := snapshot.price), remote);
      case Known(status) =>
        var after := sub.(plan := Some(plan.id), status := status, customer := Some(customer), remote := Some(remote), price := snapshot.price);
        AttachKeeps(s, local, after, remote);
        var t := s.(subscriptions := s.subscriptions[local := after]);
        if m.checkout != Missing {
          var c := t.checkouts[m.checkout.id];
          ShapeOf(t, m.checkout.id);
          CompletedFollows(c, customer, remote, now);
          MoveKeeps(t, m.checkout.id, Completed(c, customer, remote, now));
          EvolvesTrans(s, t, t.(checkouts := t.checkouts[m.checkout.id := Completed(c, customer, remote, now)]));
        }
    }
  }

  lemma ShapeOf(s: Store, id: Id)
    requires BillingInv(s) && id in s.checkouts
    ensures Shape(s.checkouts[id])
  {
  }

  // ---------------------------------------------------------------- invoices and events

  lemma InvoiceKeeps(s: Store, d: Delivery)
    requires BillingInv(s)
    ensures match StoreInvoice(s, d)
      case Failed => true
      case Done(t, _) => BillingInv(t) && Evolves(s, t) && t.events == s.events
  {
    EvolvesSelf(s);
    UpsertForward(Local(s, d.invoice.id), d);
    hide BillingInv, Upsert;
    if Upsert(Local(s, d.invoice.id), d).Stored? {
      var row := Upsert(Local(s, d.invoice.id), d).row;
      var t := s.(invoices := s.invoices[d.invoice.id := row]);
      SameInv(s, t);
      forall k | k in s.invoices ensures RowForward(s.invoices[k], t.invoices[k]) {
      }
    }
  }

  lemma UpsertForward(local: Option<Row>, d: Delivery)
    ensures local.Some? && Upsert(local, d).Stored? ==> RowForward(local.value, Upsert(local, d).row)
  {
  }

  /** The invariant does not look at invoices or events. */
  lemma SameInv(s: Store, t: Store)
    requires BillingInv(s) && t.checkouts == s.checkouts && t.subscriptions == s.subscriptions && t.next == s.next
    ensures BillingInv(t)
  {
  }

  lemma EffectKeeps(config: Config, s: Store, e: Event, answer: Option<Snapshot>, now: Time)
    requires BillingInv(s)
    ensures match EffectOf(config, s, e, answer, now)
      case Failed => true
      case Done(t, _) => BillingInv(t) && Evolves(s, t) && t.events == s.events
  {
    hide BillingInv, Evolves, Sync, EndCheckout, StoreInvoice;
    EvolvesSelf(s);
    match e.body {
      case SubscriptionChanged(deleted, changed) =>
        if deleted || answer.Some? {
          SyncKeeps(config, s, if deleted then changed else answer.value, now);
        }
      case CheckoutEnded(ended, expired) =>
        EndKeeps(config, s, ended, expired, now);
      case InvoiceChanged(invoice, remote) =>
        if answer.Some? {
          SyncKeeps(config, s, answer.value, now);
        }
        if remote.Some? {
          var held := ResolveHolder(config, s, remote.value, answer, now);
          if held.SyncedTo? && held.id in held.store.subscriptions {
            var d := DeliveryTo(held.store, held.id, invoice, e.id, e.time);
            InvoiceKeeps(held.store, d);
            if StoreInvoice(held.store, d).Done? {
              EvolvesTrans(s, held.store, StoreInvoice(held.store, d).store);
            }
          }
        }
      case Unhandled =>
    }
  }

  lemma ProcessKeeps(config: Config, s: Store, e: Event, answer: Option<Snapshot>, now: Time)
    requires BillingInv(s)
    ensures var (t, receipt) := Process(config, s, e, answer, now);
      && BillingInv(t) && Evolves(s, t)
      && (receipt != Accepted ==> t == s)
      && t.events.Keys == s.events.Keys + (if receipt == Accepted then {e.id} else {})
      && (receipt == Accepted ==> e.id !in s.events)
  {
    hide BillingInv, EffectOf;
    EvolvesSelf(s);
    EffectKeeps(config, s, e, answer, now);
    var effect := EffectOf(config, s, e, answer, now);
    if e.usable && e.id !in s.events && effect.Done? {
      SameInv(effect.store, effect.store.(events := effect.store.events[e.id := effect.processed]));
    }
  }

  // ---------------------------------------------------------------- runs

  lemma StepKeeps(config: Config, refreshes: bool, s: Store, a: Action)
    requires BillingInv(s)
    ensures BillingInv(Step(config, refreshes, s, a)) && Evolves(s, Step(config, refreshes, s, a))
  {
    hide BillingInv, Evolves, Sync, Process, Prepare, Publish, Reject;
    EvolvesSelf(s);
    match a {
      case Preparing(business, plan, key, now, expires) => PrepareKeeps(s, business, plan, key, now, expires);
      case Publishing(id, session, url, expires) => PublishKeeps(s, id, session, url, expires, refreshes);
      case Rejecting(id, now) => RejectKeeps(s, id, now, refreshes);
      case Receiving(e, answer, now) => ProcessKeeps(config, s, e, answer, now);
      case Syncing(expected, snapshot, now) => SyncKeeps(config, s, snapshot, now);
    }
  }

  /** Over every run, whichever image the locked reads leave: the invariant holds and no invoice ever moves back. */
  lemma {:induction false} RunKeeps(config: Config, refreshes: bool, s: Store, actions: seq<Action>)
    requires BillingInv(s)
    ensures BillingInv(Run(config, refreshes, s, actions)) && Evolves(s, Run(config, refreshes, s, actions))
  {
    hide BillingInv, Evolves, Step;
    if actions == [] {
      EvolvesSelf(s);
    } else {
      var t := Run(config, refreshes, s, actions[..|actions| - 1]);
      RunKeeps(config, refreshes, s, actions[..|actions| - 1]);
      StepKeeps(config, refreshes, t, actions[|actions| - 1]);
      EvolvesTrans(s, t, Step(config, refreshes, t, actions[|actions| - 1]));
    }
  }

  lemma EmptyInv()
    ensures BillingInv(EMPTY_STORE)
  {
  }

  /**
    In every reachable state, for either image, a business has at most one pending or open checkout, and one
    checkout a key.
    */
  lemma {:induction false} OneCheckoutAtATime(config: Config, refreshes: bool, actions: seq<Action>, i: Id, j: Id)
    requires var s := Run(config, refreshes, EMPTY_STORE, actions);
      && i in s.checkouts && j in s.checkouts && s.checkouts[i].business == s.checkouts[j].business
      && (s.checkouts[i].key == s.checkouts[j].key || (Ongoing(s.checkouts[i]) && Ongoing(s.checkouts[j])))
    ensures i == j
  {
    EmptyInv();
    RunKeeps(config, refreshes, EMPTY_STORE, actions);
    hide Run;
  }

  /** With refreshed reads the index on ongoing checkouts never has to refuse a publication. */
  lemma {:induction false} IndexNeverFires(config: Config, actions: seq<Action>, id: Id, session: string, url: string, expires: Time)
    requires id in Run(config, true, EMPTY_STORE, actions).checkouts
    ensures var s := Run(config, true, EMPTY_STORE, actions);
      var t := Publish(s, id, session, url, expires, true);
      && t.checkouts[id].session == Some(session) && t.checkouts[id].url == Some(url)
      && (s.checkouts[id].status == Pending ==> t.checkouts[id].status == Opened)
  {
    EmptyInv();
    RunKeeps(config, true, EMPTY_STORE, actions);
    hide Run, Shapes, KeysUnique, Linked, RemotesUnique, Numbered;
  }

  // ---------------------------------------------------------------- at most once

  /** How many deliveries of an event took effect. */
  function Applied(config: Config, refreshes: bool, actions: seq<Action>, id: string): nat {
    if actions == [] then 0
    else
      var before := actions[..|actions| - 1];
      Applied(config, refreshes, before, id)
      + match actions[|actions| - 1]
        case Receiving(e, answer, now) =>
          if e.id == id && Process(config, Run(config, refreshes, EMPTY_STORE, before), e, answer, now).1 == Accepted then 1 else 0
        case _ => 0
  }

  /**
    Over every run, an event id takes effect at most once, exactly when it is claimed; a delivery that fails claims
    nothing, so a later delivery of the same event can still take effect.
    */
  lemma {:induction false} AppliedAtMostOnce(config: Config, refreshes: bool, actions: seq<Action>, id: string)
    ensures Applied(config, refreshes, actions, id) == if id in Run(config, refreshes, EMPTY_STORE, actions).events then 1 else 0
  {
    hide Step, Process;
    if actions != [] {
      var before, a := actions[..|actions| - 1], actions[|actions| - 1];
      AppliedAtMostOnce(config, refreshes, before, id);
      EmptyInv();
      RunKeeps(config, refreshes, EMPTY_STORE, before);
      StepClaims(config, refreshes, Run(config, refreshes, EMPTY_STORE, before), a, id);
    }
  }

  lemma StepClaims(config: Config, refreshes: bool, s: Store, a: Action, id: string)
    requires BillingInv(s)
    ensures var t := Step(config, refreshes, s, a);
      id in t.events <==>
        (id in s.events || (a.Receiving? && a.event.id == id && Process(config, s, a.event, a.answer, a.now).1 == Accepted))
    ensures a.Receiving? && id in s.events && a.event.id == id ==> Process(config, s, a.event, a.answer, a.now).1 != Accepted
  {
    hide BillingInv, Sync, Process, Evolves, FindKey, FindOngoing, FindCurrent, FindPaid;
    if a.Receiving? {
      ProcessKeeps(config, s, a.event, a.answer, a.now);
    } else if a.Syncing? {
      SyncKeeps(config, s, a.snapshot, a.now);
    }
  }

  // ---------------------------------------------------------------- invoices over runs

  /** The invoice deliveries that a run's accepted events made for one invoice. */
  function Delivered(config: Config, refreshes: bool, actions: seq<Action>, invoice: string): seq<Delivery> {
    if actions == [] then []
    else
      var before := actions[..|actions| - 1];
      Delivered(config, refreshes, before, invoice)
      + DeliveredBy(config, Run(config, refreshes, EMPTY_STORE, before), actions[|actions| - 1], invoice)
  }

  function DeliveredBy(config: Config, s: Store, a: Action, invoice: string): seq<Delivery> {
    match a
    case Receiving(e, answer, now) =>
      if Process(config, s, e, answer, now).1 != Accepted || !e.body.InvoiceChanged? || e.body.invoice.id != invoice
        || e.body.remote == None then []
      else
        (match ResolveHolder(config, s, e.body.remote.value, answer, now)
         case SyncedTo(id, t) => (if id in t.subscriptions then [DeliveryTo(t, id, e.body.invoice, e.id, e.time)] else [])
         case _ => [])
    case _ => []
  }

  lemma ProcessInvoice(config: Config, s: Store, a: Action, invoice: string)
    requires BillingInv(s) && a.Receiving?
    ensures var ds := DeliveredBy(config, s, a, invoice);
      && |ds| <= 1
      && Local(Process(config, s, a.event, a.answer, a.now).0, invoice) == if ds == [] then Local(s, invoice) else Apply(Local(s, invoice), ds[0])
  {
    hide BillingInv, Sync, EndCheckout, Upsert, Evolves;
    var e := a.event;
    if Process(config, s, e, a.answer, a.now).1 == Accepted {
      match e.body {
        case SubscriptionChanged(deleted, changed) =>
          SyncKeeps(config, s, if deleted then changed else a.answer.value, a.now);
        case CheckoutEnded(ended, expired) =>
          EndKeeps(config, s, ended, expired, a.now);
        case InvoiceChanged(i, remote) =>
          if a.answer.Some? {
            SyncKeeps(config, s, a.answer.value, a.now);
          }
        case Unhandled =>
      }
    }
  }

  lemma StepInvoice(config: Config, refreshes: bool, s: Store, a: Action, invoice: string)
    requires BillingInv(s)
    ensures var ds := DeliveredBy(config, s, a, invoice);
      && |ds| <= 1
      && Local(Step(config, refreshes, s, a), invoice) == if ds == [] then Local(s, invoice) else Apply(Local(s, invoice), ds[0])
  {
    hide BillingInv, Sync, Process, Evolves, Apply, FindKey, FindOngoing, FindCurrent, FindPaid;
    if a.Receiving? {
      ProcessInvoice(config, s, a, invoice);
    } else if a.Syncing? {
      SyncKeeps(config, s, a.snapshot, a.now);
    }
  }

  /** Whatever else a run does, an invoice's row is what its accepted deliveries, in their order, make of it. */
  lemma {:induction false} InvoiceIsItsDeliveries(config: Config, refreshes: bool, actions: seq<Action>, invoice: string)
    ensures Local(Run(config, refreshes, EMPTY_STORE, actions), invoice) == Deliver(Delivered(config, refreshes, actions, invoice))
  {
    hide Step, DeliveredBy, Apply, Local;
    if actions == [] {
      NoInvoice(invoice);
    } else {
      var before, a := actions[..|actions| - 1], actions[|actions| - 1];
      InvoiceIsItsDeliveries(config, refreshes, before, invoice);
      EmptyInv();
      RunKeeps(config, refreshes, EMPTY_STORE, before);
      var s := Run(config, refreshes, EMPTY_STORE, before);
      StepInvoice(config, refreshes, s, a, invoice);
      var ds := DeliveredBy(config, s, a, invoice);
      var all := Delivered(config, refreshes, before, invoice);
      if ds == [] {
        assert all + ds == all;
      } else {
        assert (all + ds)[..|all + ds| - 1] == all;
      }
    }
  }

  lemma NoInvoice(invoice: string)
    ensures Local(EMPTY_STORE, invoice) == None
  {
  }

  /**
    Two runs that accepted the same deliveries for an invoice, in any order, among any other events and with either
    image, end with the same row, provided the deliveries that share the greatest time and rank agree on it.
    */
  lemma {:induction false} WebhookOrderIrrelevant(config: Config, refreshes: bool, other: bool, a: seq<Action>, b: seq<Action>, invoice: string)
    requires SameEvents(Delivered(config, refreshes, a, invoice), Delivered(config, other, b, invoice))
    requires OneHolder(Delivered(config, refreshes, a, invoice)) && Untied(Delivered(config, refreshes, a, invoice))
    ensures Local(Run(config, refreshes, EMPTY_STORE, a), invoice) == Local(Run(config, other, EMPTY_STORE, b), invoice)
  {
    hide Run, Delivered, Untied, OneHolder, SameEvents;
    InvoiceIsItsDeliveries(config, refreshes, a, invoice);
    InvoiceIsItsDeliveries(config, other, b, invoice);
    ConvergesExactlyWhen(Delivered(config, refreshes, a, invoice));
  }
}
