/** What each checkout transaction decides, and the rows it leaves, said of the tables it finds. */
module BillingDecisions {
  import opened CreditModel
  import opened Billing
  import opened BillingTheorems

  // ---------------------------------------------------------------- preparing an attempt

  /** Pending or open, and not past its expiry. */
  predicate Live(c: Checkout, now: Time) {
    c.status in {Pending, Opened} && !(c.expires.Some? && c.expires.value <= now)
  }

  /** The business' checkouts that lapsed are expired; every other checkout is as it was. */
  ghost predicate LapsedExpired(a: Checkouts, b: Checkouts, business: Id, now: Time) {
    && (forall i | i in a :: i in b && b[i] ==
          if a[i].business == business && a[i].status in {Pending, Opened} && !Live(a[i], now) then a[i].(status := Expired) else a[i])
    && b.Keys == a.Keys
  }

  predicate KeyedBy(s: Store, i: Id, business: Id, key: string) {
    i in s.checkouts && s.checkouts[i].business == business && s.checkouts[i].key == key
  }

  predicate LiveFor(s: Store, i: Id, business: Id, now: Time) {
    i in s.checkouts && s.checkouts[i].business == business && Live(s.checkouts[i], now)
  }

  predicate CurrentFor(s: Store, i: Id, business: Id) {
    i in s.subscriptions && s.subscriptions[i].business == business && s.subscriptions[i].status !in {IncompleteExpired, Canceled}
  }

  ghost predicate NewestFor(s: Store, i: Id, business: Id) {
    CurrentFor(s, i, business) && forall j | j in s.subscriptions && CurrentFor(s, j, business) :: j <= i
  }

  /** The subscription is attached to the provider, or a paid checkout is about to attach it. */
  predicate TakenUp(s: Store, i: Id)
    requires i in s.subscriptions
  {
    s.subscriptions[i].remote.Some?
    || exists c | c in s.checkouts :: s.checkouts[c].business == s.subscriptions[i].business && s.checkouts[c].subscription == i
         && s.checkouts[c].status == Complete && s.checkouts[c].remote.Some?
  }

  /** The one row a new attempt adds. */
  function Attempt(business: Id, subscription: Id, plan: Id, key: string, expires: Time): Checkout {
    Checkout(business, subscription, plan, key, Pending, None, None, Some(expires), None, None, None)
  }

  ghost predicate Attempts(s: Store, t: Store, id: Id, row: Checkout, now: Time) {
    && id in t.checkouts && t.checkouts[id] == row && id !in s.checkouts
    && LapsedExpired(s.checkouts, t.checkouts - {id}, row.business, now)
    && t.next == id + 1 && t.invoices == s.invoices && t.events == s.events
  }

  lemma FoundKey(s: Store, business: Id, key: string, now: Time)
    requires BillingInv(s)
    ensures FindKey(ExpireStale(s, business, now), business, key).Some?
       ==> KeyedBy(s, FindKey(ExpireStale(s, business, now), business, key).value, business, key)
    ensures FindKey(ExpireStale(s, business, now), business, key).None? ==> forall i | i in s.checkouts :: !KeyedBy(s, i, business, key)
  {
    hide CheckoutsInv, Linked, RemotesUnique;
    var t := ExpireStale(s, business, now);
    forall i | i in s.checkouts && KeyedBy(s, i, business, key) ensures FindKey(t, business, key).Some? {
      assert ByKey(t, business, key)(i);
    }
    if FindKey(t, business, key).Some? {
      assert ByKey(t, business, key)(FindKey(t, business, key).value);
    }
  }

  lemma FoundOngoing(s: Store, business: Id, now: Time)
    requires BillingInv(s)
    ensures FindOngoing(ExpireStale(s, business, now), business).Some?
       ==> LiveFor(s, FindOngoing(ExpireStale(s, business, now), business).value, business, now)
    ensures FindOngoing(ExpireStale(s, business, now), business).None? ==> forall i | i in s.checkouts :: !LiveFor(s, i, business, now)
  {
    hide CheckoutsInv, Linked, RemotesUnique;
    var t := ExpireStale(s, business, now);
    forall i | i in s.checkouts && LiveFor(s, i, business, now) ensures FindOngoing(t, business).Some? {
      assert ByOngoing(t, business)(i);
    }
    if FindOngoing(t, business).Some? {
      assert ByOngoing(t, business)(FindOngoing(t, business).value);
    }
  }

  lemma {:induction false} NewestIsGreatest(n: Id, matching: Id -> bool)
    ensures Newest(n, matching).Some? ==> forall j: Id | j < n && matching(j) :: j <= Newest(n, matching).value
  {
    if n > 0 && !matching(n - 1) {
      NewestIsGreatest(n - 1, matching);
    }
  }

  lemma FoundCurrent(s: Store, t: Store, business: Id)
    requires BillingInv(s) && t.subscriptions == s.subscriptions && t.next == s.next
    ensures FindCurrent(t, business).Some? ==> NewestFor(s, FindCurrent(t, business).value, business)
    ensures FindCurrent(t, business).None? ==> forall i | i in s.subscriptions :: !CurrentFor(s, i, business)
  {
    hide CheckoutsInv, Linked, RemotesUnique;
    NewestIsGreatest(t.next, ByCurrent(t, business));
    forall i | i in s.subscriptions && CurrentFor(s, i, business) ensures i < s.next && ByCurrent(t, business)(i) {
    }
    if FindCurrent(t, business).Some? {
      assert ByCurrent(t, business)(FindCurrent(t, business).value);
    }
  }

  lemma FoundPaid(s: Store, business: Id, now: Time, i: Id)
    requires BillingInv(s) && i in s.subscriptions && s.subscriptions[i].business == business
    ensures TakenUp(s, i) <==> s.subscriptions[i].remote.Some? || FindPaid(ExpireStale(s, business, now), business, i).Some?
  {
    hide CheckoutsInv, Linked, RemotesUnique;
    var t := ExpireStale(s, business, now);
    forall c | c in s.checkouts && s.checkouts[c].business == business && s.checkouts[c].subscription == i
      && s.checkouts[c].status == Complete && s.checkouts[c].remote.Some?
      ensures FindPaid(t, business, i).Some?
    {
      assert ByPaid(t, business, i)(c);
    }
    if FindPaid(t, business, i).Some? {
      var c := FindPaid(t, business, i).value;
      assert ByPaid(t, business, i)(c);
      assert s.checkouts[c].remote.Some? && s.checkouts[c].status == Complete;
    }
  }

  lemma StaleExpire(s: Store, business: Id, now: Time)
    ensures LapsedExpired(s.checkouts, ExpireStale(s, business, now).checkouts, business, now)
  {
  }

  /**
    A known key returns its attempt or, for another plan, a conflict; else a live checkout of the business is in the
    way; else its newest current subscription must not be taken up; else a new attempt is stored for that
    subscription, or for a new empty one. Only the returned or stored attempt commits the expiry of lapsed ones.
    */
  lemma PreparesExactlyWhen(s: Store, business: Id, plan: Id, key: string, now: Time, expires: Time)
    requires BillingInv(s)
    ensures var (t, r) := Prepare(s, business, plan, key, now, expires);
      && (r.InProgress? || r.Conflict? ==> t == s)
      && (forall i | i in s.checkouts && KeyedBy(s, i, business, key) ::
            if s.checkouts[i].plan != plan then r == Conflict
            else r == Existing(i) && t == s.(checkouts := t.checkouts) && LapsedExpired(s.checkouts, t.checkouts, business, now))
      && ((forall i | i in s.checkouts :: !KeyedBy(s, i, business, key)) ==>
            && (forall i | i in s.checkouts && LiveFor(s, i, business, now) :: r == InProgress(i))
            && ((forall i | i in s.checkouts :: !LiveFor(s, i, business, now)) ==>
                  NewAttempt(s, t, r, business, plan, key, now, expires)))
  {
    FoundKey(s, business, key, now);
    FoundOngoing(s, business, now);
    var u := ExpireStale(s, business, now);
    StaleExpire(s, business, now);
    if FindKey(u, business, key).Some? {
      KeptRow(s, FindKey(u, business, key).value, business, now);
      OneKey(s, business, key);
    } else if FindOngoing(u, business).Some? {
      OneLive(s, business, now);
    } else {
      NewAttemptIs(s, business, plan, key, now, expires);
    }
    hide FindKey, FindOngoing, FindCurrent, FindPaid, BillingInv, ExpireStale, LapsedExpired, NewAttempt, NewestFor;
  }

  lemma KeptRow(s: Store, i: Id, business: Id, now: Time)
    requires BillingInv(s) && i in s.checkouts && s.checkouts[i].business == business
    ensures var u := ExpireStale(s, business, now);
      && u.checkouts[i].plan == s.checkouts[i].plan && u.checkouts[i].subscription in u.subscriptions
      && u.subscriptions[u.checkouts[i].subscription].business == business
      && u == s.(checkouts := u.checkouts)
  {
    hide CheckoutsInv, RemotesUnique, Numbered;
  }

  lemma OneKey(s: Store, business: Id, key: string)
    requires BillingInv(s)
    ensures forall i, j | i in s.checkouts && j in s.checkouts && KeyedBy(s, i, business, key) && KeyedBy(s, j, business, key) :: i == j
  {
    hide OneOngoing, Shapes, Linked, RemotesUnique, Numbered;
  }

  lemma OneLive(s: Store, business: Id, now: Time)
    requires BillingInv(s)
    ensures forall i, j | i in s.checkouts && j in s.checkouts && LiveFor(s, i, business, now) && LiveFor(s, j, business, now) :: i == j
  {
    hide KeysUnique, Shapes, Linked, RemotesUnique, Numbered;
  }

  /** What happens when neither the key nor a live checkout is found. */
  ghost predicate NewAttempt(s: Store, t: Store, r: Prepared, business: Id, plan: Id, key: string, now: Time, expires: Time) {
    && (forall j | j in s.subscriptions && NewestFor(s, j, business) ::
          if TakenUp(s, j) then r == Conflict
          else r == Created(s.next) && t.subscriptions == s.subscriptions
               && Attempts(s, t, s.next, Attempt(business, j, plan, key, expires), now))
    && ((forall j | j in s.subscriptions :: !CurrentFor(s, j, business)) ==>
          && r == Created(s.next + 1) && t.subscriptions == s.subscriptions[s.next := Subscription(business, None, Incomplete, None, None, None)]
          && Attempts(s, t, s.next + 1, Attempt(business, s.next, plan, key, expires), now))
  }

  lemma NewAttemptIs(s: Store, business: Id, plan: Id, key: string, now: Time, expires: Time)
    requires BillingInv(s)
    requires FindKey(ExpireStale(s, business, now), business, key).None? && FindOngoing(ExpireStale(s, business, now), business).None?
    ensures var (t, r) := Prepare(s, business, plan, key, now, expires); NewAttempt(s, t, r, business, plan, key, now, expires)
  {
    var u := ExpireStale(s, business, now);
    var current := FindCurrent(u, business);
    FoundCurrent(s, u, business);
    var (t, r) := Prepare(s, business, plan, key, now, expires);
    if current.Some? {
      OneNewest(s, current.value, business);
      AttemptFor(s, business, plan, key, now, expires);
      AttemptMade(s, t, r, current.value, business, plan, key, now, expires);
    } else {
      AttemptForNew(s, business, plan, key, now, expires);
      AttemptMadeNew(s, t, r, business, plan, key, now, expires);
    }
    hide Prepare, BillingInv, FindKey, FindOngoing, FindCurrent, ExpireStale, TakenUp, Attempts, NewestFor, CurrentFor, NewAttempt;
  }

  lemma AttemptMade(s: Store, t: Store, r: Prepared, j: Id, business: Id, plan: Id, key: string, now: Time, expires: Time)
    requires j in s.subscriptions && CurrentFor(s, j, business) && forall k | k in s.subscriptions && NewestFor(s, k, business) :: k == j
    requires if TakenUp(s, j) then r == Conflict
             else r == Created(s.next) && t.subscriptions == s.subscriptions
                  && Attempts(s, t, s.next, Attempt(business, j, plan, key, expires), now)
    ensures NewAttempt(s, t, r, business, plan, key, now, expires)
  {
    hide TakenUp, Attempts, NewestFor, CurrentFor;
  }

  lemma AttemptMadeNew(s: Store, t: Store, r: Prepared, business: Id, plan: Id, key: string, now: Time, expires: Time)
    requires forall i | i in s.subscriptions :: !CurrentFor(s, i, business)
    requires r == Created(s.next + 1) && t.subscriptions == s.subscriptions[s.next := Subscription(business, None, Incomplete, None, None, None)]
    requires Attempts(s, t, s.next + 1, Attempt(business, s.next, plan, key, expires), now)
    ensures NewAttempt(s, t, r, business, plan, key, now, expires)
  {
    NobodyNewest(s, business);
    hide TakenUp, Attempts, NewestFor, CurrentFor;
  }

  lemma OneNewest(s: Store, i: Id, business: Id)
    requires NewestFor(s, i, business)
    ensures i in s.subscriptions && CurrentFor(s, i, business) && forall j | j in s.subscriptions && NewestFor(s, j, business) :: j == i
  {
  }

  lemma NobodyNewest(s: Store, business: Id)
    requires forall i | i in s.subscriptions :: !CurrentFor(s, i, business)
    ensures forall i | i in s.subscriptions :: !NewestFor(s, i, business)
  {
  }

  lemma AttemptFor(s: Store, business: Id, plan: Id, key: string, now: Time, expires: Time)
    requires BillingInv(s)
    requires FindKey(ExpireStale(s, business, now), business, key).None? && FindOngoing(ExpireStale(s, business, now), business).None?
    requires FindCurrent(ExpireStale(s, business, now), business).Some?
    ensures var ((t, r), j) := (Prepare(s, business, plan, key, now, expires), FindCurrent(ExpireStale(s, business, now), business).value);
      && j in s.subscriptions
      && if TakenUp(s, j) then r == Conflict
         else r == Created(s.next) && t.subscriptions == s.subscriptions
              && Attempts(s, t, s.next, Attempt(business, j, plan, key, expires), now)
  {
    var u := ExpireStale(s, business, now);
    var j := FindCurrent(u, business).value;
    FoundCurrent(s, u, business);
    StaleExpire(s, business, now);
    Unissued(s, business, now);
    FoundPaid(s, business, now, j);
    Inserted(s, u, Attempt(business, j, plan, key, expires), now);
    hide FindKey, FindOngoing, FindCurrent, FindPaid, BillingInv, TakenUp, LapsedExpired, ExpireStale, Attempts, WithCheckout, NewestFor;
  }

  lemma AttemptForNew(s: Store, business: Id, plan: Id, key: string, now: Time, expires: Time)
    requires BillingInv(s)
    requires FindKey(ExpireStale(s, business, now), business, key).None? && FindOngoing(ExpireStale(s, business, now), business).None?
    requires FindCurrent(ExpireStale(s, business, now), business).None?
    ensures var (t, r) := Prepare(s, business, plan, key, now, expires);
      && r == Created(s.next + 1) && t.subscriptions == s.subscriptions[s.next := Subscription(business, None, Incomplete, None, None, None)]
      && Attempts(s, t, s.next + 1, Attempt(business, s.next, plan, key, expires), now)
  {
    var u := ExpireStale(s, business, now);
    StaleExpire(s, business, now);
    Unissued(s, business, now);
    Inserted(s, WithSubscription(u, business), Attempt(business, s.next, plan, key, expires), now);
    hide FindKey, FindOngoing, FindCurrent, FindPaid, BillingInv, LapsedExpired, ExpireStale, Attempts, WithCheckout;
  }

  lemma Inserted(s: Store, u: Store, row: Checkout, now: Time)
    requires u.next !in s.checkouts && LapsedExpired(s.checkouts, u.checkouts, row.business, now)
    requires u.invoices == s.invoices && u.events == s.events
    ensures Attempts(s, WithCheckout(u, row), u.next, row, now) && WithCheckout(u, row).subscriptions == u.subscriptions
  {
    assert WithCheckout(u, row).checkouts - {u.next} == u.checkouts;
  }

  lemma Unissued(s: Store, business: Id, now: Time)
    requires BillingInv(s)
    ensures s.next !in s.checkouts && s.next + 1 !in s.checkouts
    ensures ExpireStale(s, business, now) == s.(checkouts := ExpireStale(s, business, now).checkouts)
    ensures ExpireStale(s, business, now).checkouts.Keys == s.checkouts.Keys
  {
    hide CheckoutsInv, Linked, RemotesUnique;
  }

  // ---------------------------------------------------------------- publishing and rejecting

  /** The index on ongoing checkouts admits the row: it is over, or no other checkout of its business is ongoing. */
  predicate Admitted(s: Store, id: Id, row: Checkout) {
    row.status in {Complete, Expired}
    || forall j | j in s.checkouts && j != id && s.checkouts[j].business == row.business :: s.checkouts[j].status in {Complete, Expired}
  }

  /** A row the index admits gets the session, its address and expiry; what the image shows as pending opens. */
  lemma PublishesExactlyWhen(s: Store, id: Id, session: string, url: string, expires: Time, refreshes: bool)
    requires id in s.checkouts
    ensures var c := s.checkouts[id];
      var status := if !refreshes || c.status == Pending then Opened else c.status;
      var row := Checkout(c.business, c.subscription, c.plan, c.key, status, Some(session), Some(url), Some(expires), c.completed, c.customer, c.remote);
      Publish(s, id, session, url, expires, refreshes) == if Admitted(s, id, row) then s.(checkouts := s.checkouts[id := row]) else s
  {
  }

  /** A rejected attempt expires now, unless the refreshed row was published or ended meanwhile. */
  lemma RejectsExactlyWhen(s: Store, id: Id, now: Time, refreshes: bool)
    requires BillingInv(s) && id in s.checkouts
    ensures var c := s.checkouts[id];
      var row := Checkout(c.business, c.subscription, c.plan, c.key, Expired, c.session, c.url, Some(now), c.completed, c.customer, c.remote);
      Reject(s, id, now, refreshes) == if !refreshes || c.status == Pending then s.(checkouts := s.checkouts[id := row]) else s
  {
    ShapeOf(s, id);
    hide BillingInv;
  }

  // ---------------------------------------------------------------- checkout events

  /** The metadata names the checkout and its subscription, in this environment, with a plan; the session ids agree. */
  predicate Names(config: Config, s: Store, ended: CheckoutObject, id: Id) {
    && id in s.checkouts && ended.metadata.checkout == Named(id)
    && ended.metadata.business == Named(s.checkouts[id].business)
    && ended.metadata.subscription == Named(s.checkouts[id].subscription)
    && ended.metadata.environment == Some(config.environment) && ended.metadata.plan.Some?
    && ended.id.Some? && (s.checkouts[id].session == None || s.checkouts[id].session == ended.id)
  }

  /**
    A checkout event is ignored without checkout metadata, and otherwise taken exactly when it names a checkout and,
    for a completion, has its customer and subscription. Expiry spares a completed checkout; completion keeps its
    first time.
    */
  lemma EndsExactlyWhen(config: Config, s: Store, ended: CheckoutObject, expired: bool, now: Time, id: Id)
    ensures ended.metadata.checkout == Missing ==> EndCheckout(config, s, ended, expired, now) == Done(s, false)
    ensures Names(config, s, ended, id) && expired ==>
      var c := s.checkouts[id];
      EndCheckout(config, s, ended, expired, now) == Done(s.(checkouts := s.checkouts[id :=
        Checkout(c.business, c.subscription, c.plan, c.key, if c.status == Complete then Complete else Expired, ended.id, c.url, c.expires,
                 c.completed, c.customer, c.remote)]), true)
    ensures Names(config, s, ended, id) && !expired && ended.customer.Some? && ended.subscription.Some? ==>
      var c := s.checkouts[id];
      EndCheckout(config, s, ended, expired, now) == Done(s.(checkouts := s.checkouts[id :=
        Checkout(c.business, c.subscription, c.plan, c.key, Complete, ended.id, c.url, c.expires,
                 Some(if c.completed.Some? then c.completed.value else now), ended.customer, ended.subscription)]), true)
    ensures ended.metadata.checkout == Named(id) ==>
      (EndCheckout(config, s, ended, expired, now).Failed? <==>
         !Names(config, s, ended, id) || (!expired && (ended.customer == None || ended.subscription == None)))
    ensures ended.metadata.checkout == Malformed ==> EndCheckout(config, s, ended, expired, now).Failed?
  {
  }
}
