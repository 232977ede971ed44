/** Which provider snapshots a synchronization accepts, what it then writes, and what a subscription row holds over runs. */
module SubscriptionSync {
  import opened CreditModel
  import opened Invoices
  import opened Billing
  import opened BillingTheorems

  // ---------------------------------------------------------------- which row a snapshot is about

  predicate HeldBy(s: Store, i: Id, remote: string) {
    i in s.subscriptions && s.subscriptions[i].remote == Some(remote)
  }

  /** The row has the remote id already, and the metadata that is present agrees with it. */
  predicate KnowsRow(config: Config, s: Store, remote: string, m: Metadata, i: Id) {
    && HeldBy(s, i, remote)
    && (m.business == Missing || m.business == Named(s.subscriptions[i].business))
    && (m.environment == None || m.environment == Some(config.environment))
  }

  /** Nobody has the remote id, and complete metadata names the row and a checkout of the plan for it. */
  predicate NamesRow(config: Config, s: Store, remote: string, m: Metadata, i: Id, plan: Plan) {
    && (forall j | j in s.subscriptions :: !HeldBy(s, j, remote))
    && i in s.subscriptions && s.subscriptions[i].remote == None
    && m.business == Named(s.subscriptions[i].business) && m.subscription == Named(i)
    && m.plan == Some(plan.code) && m.environment == Some(config.environment)
    && m.checkout.Named? && m.checkout.id in s.checkouts
    && s.checkouts[m.checkout.id].business == s.subscriptions[i].business
    && s.checkouts[m.checkout.id].subscription == i && s.checkouts[m.checkout.id].plan == plan.id
  }

  /** The checkout that the metadata names, if any, is one of this row. */
  predicate CheckoutFits(s: Store, m: Metadata, i: Id)
    requires i in s.subscriptions
  {
    m.checkout != Missing ==>
      && m.checkout.Named? && m.checkout.id in s.checkouts
      && s.checkouts[m.checkout.id].business == s.subscriptions[i].business && s.checkouts[m.checkout.id].subscription == i
  }

  /** An identified snapshot of a configured price that belongs to the row. */
  predicate Configured(config: Config, s: Store, snapshot: Snapshot, i: Id) {
    && snapshot.id.Some? && snapshot.customer.Some? && snapshot.price.Some? && snapshot.price.value in config.prices
    && var (plan, m) := (config.prices[snapshot.price.value], snapshot.metadata);
    && ((KnowsRow(config, s, snapshot.id.value, m, i) && (m.plan == None || m.plan == Some(plan.code)))
        || NamesRow(config, s, snapshot.id.value, m, i, plan))
    && (s.subscriptions[i].customer == None || s.subscriptions[i].customer == snapshot.customer)
  }

  /** The snapshot is taken over as it is. */
  predicate Adopts(config: Config, s: Store, snapshot: Snapshot, i: Id) {
    Configured(config, s, snapshot, i) && snapshot.status.Known? && CheckoutFits(s, snapshot.metadata, i)
  }

  /** The row is known, but the price or the status is not. */
  predicate ClosesDown(config: Config, s: Store, snapshot: Snapshot, i: Id) {
    && snapshot.id.Some? && snapshot.customer.Some? && snapshot.price.Some?
    && KnowsRow(config, s, snapshot.id.value, snapshot.metadata, i)
    && (snapshot.price.value !in config.prices || (Configured(config, s, snapshot, i) && snapshot.status.Unsupported?))
  }

  // ---------------------------------------------------------------- what is written

  /** The row an adopted snapshot leaves. */
  function Adopted(config: Config, business: Id, snapshot: Snapshot): Subscription
    requires snapshot.price.Some? && snapshot.price.value in config.prices && snapshot.status.Known?
  {
    Subscription(business, Some(config.prices[snapshot.price.value].id), snapshot.status.status,
                 snapshot.customer, snapshot.id, snapshot.price)
  }

  /** The row that is left when the snapshot cannot be read: no plan, and incomplete. */
  function ClosedDown(business: Id, snapshot: Snapshot): Subscription {
    Subscription(business, None, Incomplete, snapshot.customer, snapshot.id, snapshot.price)
  }

  /** The named checkout is complete, since its first completion, with the snapshot's customer and remote id. */
  function Finished(checkouts: Checkouts, snapshot: Snapshot, now: Time): Checkouts
    requires snapshot.metadata.checkout.Named? ==> snapshot.metadata.checkout.id in checkouts
  {
    if !snapshot.metadata.checkout.Named? then checkouts
    else
      var c := checkouts[snapshot.metadata.checkout.id];
      checkouts[snapshot.metadata.checkout.id := Checkout(c.business, c.subscription, c.plan, c.key, Complete, c.session, c.url, c.expires,
        Some(if c.completed.Some? then c.completed.value else now), snapshot.customer, snapshot.id)]
  }

  predicate NoMetadata(m: Metadata) { m == Metadata(Missing, Missing, None, Missing, None) }

  /**
    A synchronization takes over exactly the snapshots that belong to a row, have a configured price and a known
    status; it closes a known row down for another price or status, ignores foreign subscriptions, and refuses the rest.
    */
  lemma SyncsExactlyWhen(config: Config, s: Store, snapshot: Snapshot, now: Time, i: Id)
    requires BillingInv(s)
    ensures Adopts(config, s, snapshot, i) ==>
      Sync(config, s, snapshot, now) == SyncedTo(i, s.(
        subscriptions := s.subscriptions[i := Adopted(config, s.subscriptions[i].business, snapshot)],
        checkouts := Finished(s.checkouts, snapshot, now)))
    ensures ClosesDown(config, s, snapshot, i) ==>
      Sync(config, s, snapshot, now) == SyncedTo(i, s.(
        subscriptions := s.subscriptions[i := ClosedDown(s.subscriptions[i].business, snapshot)]))
    ensures Sync(config, s, snapshot, now).SyncedTo? && Sync(config, s, snapshot, now).id == i ==>
      Adopts(config, s, snapshot, i) || ClosesDown(config, s, snapshot, i)
    ensures Sync(config, s, snapshot, now) == Unrelated <==>
      && snapshot.id.Some? && snapshot.customer.Some? && NoMetadata(snapshot.metadata)
      && forall j | j in s.subscriptions :: !HeldBy(s, j, snapshot.id.value)
  {
    hide BillingInv, FindRemote;
    if snapshot.id.Some? {
      RemoteFree(s, snapshot.id.value);
      FoundHolds(s, snapshot.id.value);
    }
  }

  lemma FoundHolds(s: Store, remote: string)
    ensures FindRemote(s, remote).Some? ==> HeldBy(s, FindRemote(s, remote).value, remote)
  {
    if FindRemote(s, remote).Some? {
      assert ByRemote(s, remote)(FindRemote(s, remote).value);
    }
  }

  // ---------------------------------------------------------------- over runs

  /** The snapshot that an action of a run applies to row i: one it accepts, in a transaction that commits. */
  ghost function HeardBy(config: Config, s: Store, a: Action, i: Id): Option<Snapshot> {
    match a
    case Syncing(expected, snapshot, _) => if i == expected then AppliesTo(config, s, Some(snapshot), i) else None
    case Receiving(e, answer, now) =>
      if Process(config, s, e, answer, now).1 != Accepted then None
      else
        (match e.body
         case SubscriptionChanged(deleted, changed) => AppliesTo(config, s, if deleted then Some(changed) else answer, i)
         case InvoiceChanged(_, remote) => if remote.Some? then AppliesTo(config, s, answer, i) else None
         case _ => None)
    case _ => None
  }

  ghost function AppliesTo(config: Config, s: Store, snapshot: Option<Snapshot>, i: Id): Option<Snapshot> {
    if snapshot.Some? && (Adopts(config, s, snapshot.value, i) || ClosesDown(config, s, snapshot.value, i)) then snapshot else None
  }

  /** The last snapshot that a run applied to the row. */
  ghost function LastHeard(config: Config, refreshes: bool, actions: seq<Action>, i: Id): Option<Snapshot> {
    if actions == [] then None
    else
      var before := actions[..|actions| - 1];
      var heard := HeardBy(config, Run(config, refreshes, EMPTY_STORE, before), actions[|actions| - 1], i);
      if heard.Some? then heard else LastHeard(config, refreshes, before, i)
  }

  /** What a snapshot says about a row of this business. */
  function SaidBy(config: Config, business: Id, snapshot: Snapshot): Subscription {
    if snapshot.price.Some? && snapshot.price.value in config.prices && snapshot.status.Known? then Adopted(config, business, snapshot)
    else ClosedDown(business, snapshot)
  }

  function Fresh(business: Id): Subscription { Subscription(business, None, Incomplete, None, None, None) }

  /** After a step a row is what the step's snapshot says, or what it was, or new and empty. */
  ghost predicate Heard(config: Config, s: Store, t: Store, heard: Option<Snapshot>, i: Id) {
    i in t.subscriptions ==>
      if heard.Some? then i in s.subscriptions && t.subscriptions[i] == SaidBy(config, s.subscriptions[i].business, heard.value)
      else if i in s.subscriptions then t.subscriptions[i] == s.subscriptions[i]
      else t.subscriptions[i] == Fresh(t.subscriptions[i].business)
  }

  lemma SyncHeard(config: Config, s: Store, snapshot: Snapshot, now: Time, i: Id)
    requires BillingInv(s) && Sync(config, s, snapshot, now).SyncedTo?
    ensures Heard(config, s, Sync(config, s, snapshot, now).store, AppliesTo(config, s, Some(snapshot), i), i)
    ensures i != Sync(config, s, snapshot, now).id ==> AppliesTo(config, s, Some(snapshot), i) == None
  {
    var j := Sync(config, s, snapshot, now).id;
    SyncsExactlyWhen(config, s, snapshot, now, i);
    SyncsExactlyWhen(config, s, snapshot, now, j);
    hide BillingInv, Sync, Adopts;
    if AppliesTo(config, s, Some(snapshot), i).Some? {
      OneRow(config, s, snapshot, i, j);
    }
  }

  /** A snapshot is about one row. */
  lemma OneRow(config: Config, s: Store, snapshot: Snapshot, i: Id, j: Id)
    requires BillingInv(s)
    requires Adopts(config, s, snapshot, i) || ClosesDown(config, s, snapshot, i)
    requires Adopts(config, s, snapshot, j) || ClosesDown(config, s, snapshot, j)
    ensures i == j && !(Adopts(config, s, snapshot, i) && ClosesDown(config, s, snapshot, i))
  {
    hide CheckoutsInv, Linked, Numbered;
  }

  lemma PrepareHeard(config: Config, s: Store, business: Id, plan: Id, key: string, now: Time, expires: Time, i: Id)
    requires BillingInv(s)
    ensures Heard(config, s, Prepare(s, business, plan, key, now, expires).0, None, i)
  {
    hide FindKey, FindOngoing, FindCurrent, FindPaid, CheckoutsInv, Linked, RemotesUnique;
  }

  lemma EffectHeard(config: Config, s: Store, e: Event, answer: Option<Snapshot>, now: Time, i: Id)
    requires BillingInv(s) && Process(config, s, e, answer, now).1 == Accepted
    ensures Heard(config, s, Process(config, s, e, answer, now).0, HeardBy(config, s, Receiving(e, answer, now), i), i)
  {
    hide BillingInv, Sync, EndCheckout, Upsert, AppliesTo, SaidBy;
    match e.body {
      case SubscriptionChanged(deleted, changed) =>
        var snapshot := if deleted then changed else answer.value;
        if Sync(config, s, snapshot, now).SyncedTo? {
          SyncHeard(config, s, snapshot, now, i);
        } else {
          NotHeard(config, s, snapshot, now, i);
        }
      case CheckoutEnded(ended, expired) =>
        EndLeavesSubscriptions(config, s, ended, expired, now);
      case InvoiceChanged(invoice, remote) =>
        if answer.Some? && remote.Some? {
          if Sync(config, s, answer.value, now).SyncedTo? {
            SyncHeard(config, s, answer.value, now, i);
          } else {
            NotHeard(config, s, answer.value, now, i);
          }
        } else {
          NothingToHear(config, s, i);
        }
      case Unhandled =>
    }
  }

  lemma NothingToHear(config: Config, s: Store, i: Id)
    ensures AppliesTo(config, s, None, i) == None
  {
  }

  lemma NotHeard(config: Config, s: Store, snapshot: Snapshot, now: Time, i: Id)
    requires BillingInv(s) && !Sync(config, s, snapshot, now).SyncedTo?
    ensures AppliesTo(config, s, Some(snapshot), i) == None
  {
    SyncsExactlyWhen(config, s, snapshot, now, i);
    hide BillingInv, Sync;
  }

  lemma EndLeavesSubscriptions(config: Config, s: Store, ended: CheckoutObject, expired: bool, now: Time)
    ensures EndCheckout(config, s, ended, expired, now).Done? ==>
      EndCheckout(config, s, ended, expired, now).store.subscriptions == s.subscriptions
  {
  }

  lemma StepHears(config: Config, refreshes: bool, s: Store, a: Action, i: Id)
    requires BillingInv(s)
    ensures Heard(config, s, Step(config, refreshes, s, a), HeardBy(config, s, a, i), i)
  {
    hide BillingInv, AppliesTo, SaidBy, Process, Prepare, Sync;
    match a {
      case Preparing(business, plan, key, now, expires) => PrepareHeard(config, s, business, plan, key, now, expires, i);
      case Receiving(e, answer, now) =>
        if Process(config, s, e, answer, now).1 == Accepted {
          EffectHeard(config, s, e, answer, now, i);
        } else {
          ProcessKeeps(config, s, e, answer, now);
        }
      case Syncing(expected, snapshot, now) =>
        if Sync(config, s, snapshot, now).SyncedTo? {
          SyncHeard(config, s, snapshot, now, i);
        } else {
          NotHeard(config, s, snapshot, now, i);
        }
      case _ =>
    }
  }

  /**
    Over any run and on either image, a subscription row is what the last snapshot applied to it says: the configured
    plan and the reported status, customer, remote id and price, or closed down; a row nobody synchronized is empty.
    */
  lemma {:induction false} RowIsLastHeard(config: Config, refreshes: bool, actions: seq<Action>, i: Id)
    requires i in Run(config, refreshes, EMPTY_STORE, actions).subscriptions
    ensures var row := Run(config, refreshes, EMPTY_STORE, actions).subscriptions[i];
      match LastHeard(config, refreshes, actions, i)
      case None => row == Fresh(row.business)
      case Some(snapshot) => row == SaidBy(config, row.business, snapshot)
  {
    hide Step, HeardBy, SaidBy, Fresh;
    assert actions != [];
    var before, a := actions[..|actions| - 1], actions[|actions| - 1];
    var s := Run(config, refreshes, EMPTY_STORE, before);
    EmptyInv();
    RunKeeps(config, refreshes, EMPTY_STORE, before);
    StepHears(config, refreshes, s, a, i);
    StepKeeps(config, refreshes, s, a);
    if i in s.subscriptions {
      RowIsLastHeard(config, refreshes, before, i);
    } else {
      NeverHeard(config, refreshes, before, i);
    }
  }

  /** A row that is not there has heard nothing. */
  lemma {:induction false} NeverHeard(config: Config, refreshes: bool, actions: seq<Action>, i: Id)
    requires i !in Run(config, refreshes, EMPTY_STORE, actions).subscriptions
    ensures LastHeard(config, refreshes, actions, i) == None
  {
    hide Step;
    if actions != [] {
      var before, a := actions[..|actions| - 1], actions[|actions| - 1];
      var s := Run(config, refreshes, EMPTY_STORE, before);
      EmptyInv();
      RunKeeps(config, refreshes, EMPTY_STORE, before);
      StepKeeps(config, refreshes, s, a);
      hide Process, Sync, BillingInv;
      NeverHeard(config, refreshes, before, i);
    }
  }
}
