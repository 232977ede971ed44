/** When a checkout's status moves back: exactly which steps of the code do it, and which runs are free of them. */
module CheckoutOrder {
  import opened CreditModel
  import opened Invoices
  import opened Billing
  import opened BillingTheorems

  /**
    The committed row and the transaction about to run. A request whose session still holds the pending image
    reopens a checkout that has completed or expired, unless the index refuses the row; and the rejection of such a
    request expires a checkout that has completed.
    */
  predicate MovesBack(s: Store, a: Action, i: Id) {
    i in s.checkouts
    && match a
       case Publishing(id, _, _, _) =>
         id == i && s.checkouts[i].status in {Complete, Expired} && !IndexTaken(s, i, s.checkouts[i].business)
       case Rejecting(id, _) => id == i && s.checkouts[i].status == Complete
       case _ => false
  }

  /** Pending comes first, then open, then expired, then complete. */
  predicate Behind(a: CheckoutStatus, b: CheckoutStatus) {
    (a == Pending && b != Pending) || (a == Opened && b in {Expired, Complete}) || (a == Expired && b == Complete)
  }

  ghost predicate Forward(a: Checkouts, b: Checkouts) {
    forall i | i in a :: i in b && !Behind(b[i].status, a[i].status)
  }

  // ---------------------------------------------------------------- transactions that never move back

  lemma PrepareForward(s: Store, business: Id, plan: Id, key: string, now: Time, expires: Time)
    requires BillingInv(s)
    ensures Forward(s.checkouts, Prepare(s, business, plan, key, now, expires).0.checkouts)
  {
    hide FindKey, FindOngoing, FindCurrent, FindPaid, CheckoutsInv, Linked, RemotesUnique;
  }

  lemma SyncForward(config: Config, s: Store, snapshot: Snapshot, now: Time)
    ensures match Sync(config, s, snapshot, now)
      case SyncedTo(_, t) => Forward(s.checkouts, t.checkouts)
      case _ => true
  {
    hide FindRemote, FindLocal, MetadataFits, AnyKey;
    if Sync(config, s, snapshot, now).SyncedTo? {
      assert forall c, customer, remote :: Completed(c, customer, remote, now).status == Complete;
      assert forall status :: !Behind(Complete, status);
    }
  }

  lemma EndForward(config: Config, s: Store, ended: CheckoutObject, expired: bool, now: Time)
    ensures match EndCheckout(config, s, ended, expired, now)
      case Failed => true
      case Done(t, _) => Forward(s.checkouts, t.checkouts)
  {
  }

  lemma InvoiceLeavesCheckouts(s: Store, d: Delivery)
    ensures match StoreInvoice(s, d)
      case Failed => true
      case Done(t, _) => t.checkouts == s.checkouts
  {
    hide Upsert;
  }

  lemma ProcessForward(config: Config, s: Store, e: Event, answer: Option<Snapshot>, now: Time)
    ensures Forward(s.checkouts, Process(config, s, e, answer, now).0.checkouts)
  {
    hide Sync, EndCheckout, StoreInvoice, Forward;
    Same(s.checkouts);
    match e.body {
      case SubscriptionChanged(deleted, changed) =>
        if deleted || answer.Some? {
          SyncForward(config, s, if deleted then changed else answer.value, now);
        }
      case CheckoutEnded(ended, expired) => EndForward(config, s, ended, expired, now);
      case InvoiceChanged(invoice, remote) =>
        if answer.Some? {
          SyncForward(config, s, answer.value, now);
        }
        if remote.Some? {
          var held := ResolveHolder(config, s, remote.value, answer, now);
          if held.SyncedTo? && held.id in held.store.subscriptions {
            InvoiceLeavesCheckouts(held.store, DeliveryTo(held.store, held.id, invoice, e.id, e.time));
          }
        }
      case Unhandled =>
    }
  }

  lemma Same(cs: Checkouts)
    ensures Forward(cs, cs)
  {
  }

  // ---------------------------------------------------------------- one step

  /** The code as it stands: a step lowers a checkout's status if and only if it is one of the two named ones. */
  lemma StepMovesBackExactlyWhen(config: Config, s: Store, a: Action, i: Id)
    requires BillingInv(s) && i in s.checkouts
    ensures i in Step(config, false, s, a).checkouts
    ensures Behind(Step(config, false, s, a).checkouts[i].status, s.checkouts[i].status) <==> MovesBack(s, a, i)
  {
    match a {
      case Preparing(business, plan, key, now, expires) =>
        PrepareForward(s, business, plan, key, now, expires);
        hide Prepare;
      case Publishing(_, _, _, _) =>
        hide BillingInv;
      case Rejecting(_, _) =>
        hide BillingInv;
      case Receiving(e, answer, now) =>
        ProcessForward(config, s, e, answer, now);
        hide Process;
      case Syncing(_, snapshot, now) =>
        SyncForward(config, s, snapshot, now);
        hide Sync;
    }
  }

  /** With refreshed reads no step lowers a status. */
  lemma RefreshedStepForward(config: Config, s: Store, a: Action)
    requires BillingInv(s)
    ensures Forward(s.checkouts, Step(config, true, s, a).checkouts)
  {
    match a {
      case Preparing(business, plan, key, now, expires) =>
        PrepareForward(s, business, plan, key, now, expires);
        hide Prepare, BillingInv;
      case Publishing(_, _, _, _) =>
        hide BillingInv;
      case Rejecting(_, _) =>
        hide BillingInv;
      case Receiving(e, answer, now) =>
        ProcessForward(config, s, e, answer, now);
        hide Process, BillingInv;
      case Syncing(_, snapshot, now) =>
        SyncForward(config, s, snapshot, now);
        hide Sync, BillingInv;
    }
  }

  // ---------------------------------------------------------------- whole runs

  function After(config: Config, refreshes: bool, actions: seq<Action>, k: nat): Store
    requires k <= |actions|
  {
    Run(config, refreshes, EMPTY_STORE, actions[..k])
  }

  /** No checkout's status is ever lower than at an earlier point of the run. */
  ghost predicate RunForward(config: Config, refreshes: bool, actions: seq<Action>) {
    forall j: nat, k: nat | j <= k <= |actions| ::
      Forward(After(config, refreshes, actions, j).checkouts, After(config, refreshes, actions, k).checkouts)
  }

  lemma AfterNext(config: Config, refreshes: bool, actions: seq<Action>, k: nat)
    requires k < |actions|
    ensures After(config, refreshes, actions, k + 1) == Step(config, refreshes, After(config, refreshes, actions, k), actions[k])
    ensures BillingInv(After(config, refreshes, actions, k))
  {
    hide Step, BillingInv;
    assert actions[..k + 1][..k] == actions[..k];
    EmptyInv();
    RunKeeps(config, refreshes, EMPTY_STORE, actions[..k]);
  }

  lemma ForwardTrans(a: Checkouts, b: Checkouts, c: Checkouts)
    requires Forward(a, b) && Forward(b, c)
    ensures Forward(a, c)
  {
  }

  lemma {:induction false} ChainForward(config: Config, refreshes: bool, actions: seq<Action>, j: nat, k: nat)
    requires j <= k <= |actions|
    requires forall m: nat | m < |actions| ::
      Forward(After(config, refreshes, actions, m).checkouts, After(config, refreshes, actions, m + 1).checkouts)
    ensures Forward(After(config, refreshes, actions, j).checkouts, After(config, refreshes, actions, k).checkouts)
  {
    hide Forward, After;
    Same(After(config, refreshes, actions, j).checkouts);
    if j < k {
      ChainForward(config, refreshes, actions, j, k - 1);
      ForwardTrans(After(config, refreshes, actions, j).checkouts, After(config, refreshes, actions, k - 1).checkouts,
                   After(config, refreshes, actions, k).checkouts);
    }
  }

  ghost predicate NothingMovesBack(s: Store, a: Action) {
    forall i :: !MovesBack(s, a, i)
  }

  lemma StepForwardExactlyWhen(config: Config, s: Store, a: Action)
    requires BillingInv(s)
    ensures Forward(s.checkouts, Step(config, false, s, a).checkouts) <==> NothingMovesBack(s, a)
  {
    hide Step, BillingInv, Behind;
    forall i | i in s.checkouts
      ensures i in Step(config, false, s, a).checkouts
      ensures Behind(Step(config, false, s, a).checkouts[i].status, s.checkouts[i].status) <==> MovesBack(s, a, i)
    {
      StepMovesBackExactlyWhen(config, s, a, i);
    }
  }

  /** No step of the run reopens or discards a checkout that is over. */
  ghost predicate NoneMovesBack(config: Config, actions: seq<Action>) {
    forall k: nat | k < |actions| :: NothingMovesBack(After(config, false, actions, k), actions[k])
  }

  lemma NextForward(config: Config, actions: seq<Action>, k: nat)
    requires k < |actions|
    ensures Forward(After(config, false, actions, k).checkouts, After(config, false, actions, k + 1).checkouts)
       <==> NothingMovesBack(After(config, false, actions, k), actions[k])
  {
    hide After, MovesBack, Step, BillingInv, Forward;
    AfterNext(config, false, actions, k);
    StepForwardExactlyWhen(config, After(config, false, actions, k), actions[k]);
  }

  /** The code as it stands never moves a checkout back in a run if and only if no step of the run is a named one. */
  lemma {:induction false} RunForwardExactlyWhen(config: Config, actions: seq<Action>)
    ensures RunForward(config, false, actions) <==> NoneMovesBack(config, actions)
  {
    hide After, Forward, NothingMovesBack;
    if RunForward(config, false, actions) {
      forall k: nat | k < |actions| ensures NothingMovesBack(After(config, false, actions, k), actions[k]) {
        NextForward(config, actions, k);
      }
    }
    if NoneMovesBack(config, actions) {
      forall m: nat | m < |actions|
        ensures Forward(After(config, false, actions, m).checkouts, After(config, false, actions, m + 1).checkouts)
      {
        NextForward(config, actions, m);
      }
      forall j: nat, k: nat | j <= k <= |actions|
        ensures Forward(After(config, false, actions, j).checkouts, After(config, false, actions, k).checkouts)
      {
        ChainForward(config, false, actions, j, k);
      }
    }
  }

  /** With refreshed reads every run moves only forward. */
  lemma {:induction false} RefreshedRunForward(config: Config, actions: seq<Action>)
    ensures RunForward(config, true, actions)
  {
    hide After, Forward, Step, BillingInv;
    forall m: nat | m < |actions|
      ensures Forward(After(config, true, actions, m).checkouts, After(config, true, actions, m + 1).checkouts)
    {
      AfterNext(config, true, actions, m);
      RefreshedStepForward(config, After(config, true, actions, m), actions[m]);
    }
    forall j: nat, k: nat | j <= k <= |actions|
      ensures Forward(After(config, true, actions, j).checkouts, After(config, true, actions, k).checkouts)
    {
      ChainForward(config, true, actions, j, k);
    }
  }

  // ---------------------------------------------------------------- the two failing branches happen

  const FRESH: Checkout := Checkout(7, 0, 3, "key", Pending, None, None, Some(100), None, None, None)

  const PREPARE: Action := Preparing(7, 3, "key", 0, 100)

  function Completion(config: Config): Action {
    Receiving(Event("evt_1", 1, true, CheckoutEnded(
      CheckoutObject(Some("cs_1"), Metadata(Named(7), Named(0), Some("plan"), Named(1), Some(config.environment)),
                     Some("cus_1"), Some("sub_1")), false)), None, 1)
  }

  lemma Prepared(config: Config)
    ensures Step(config, false, EMPTY_STORE, PREPARE).checkouts == map[1 := FRESH]
    ensures Step(config, false, EMPTY_STORE, PREPARE).events == map[]
  {
    var t := ExpireStale(EMPTY_STORE, 7, 0);
    assert t.checkouts == map[];
    assert t == EMPTY_STORE;
  }

  lemma CompletedNext(config: Config, s: Store)
    requires s.checkouts == map[1 := FRESH] && s.events == map[]
    ensures var t := Step(config, false, s, Completion(config));
      t.checkouts.Keys == {1} && t.checkouts[1].status == Complete
  {
  }

  /** A request prepares an attempt, the provider's completion arrives, and only then does the request go on. */
  lemma CompletedEarly(config: Config) returns (t: Store)
    ensures t == Run(config, false, EMPTY_STORE, [PREPARE, Completion(config)])
    ensures t.checkouts.Keys == {1} && t.checkouts[1].status == Complete
  {
    Prepared(config);
    CompletedNext(config, Step(config, false, EMPTY_STORE, PREPARE));
    hide Step;
    RunOfTwo(config, PREPARE, Completion(config));
    t := Run(config, false, EMPTY_STORE, [PREPARE, Completion(config)]);
  }

  lemma RunOfTwo(config: Config, a: Action, b: Action)
    ensures Run(config, false, EMPTY_STORE, [a, b]) == Step(config, false, Step(config, false, EMPTY_STORE, a), b)
  {
    hide Step;
    assert [a, b][..1] == [a] && [a][..0] == [];
    assert Run(config, false, EMPTY_STORE, [a]) == Step(config, false, EMPTY_STORE, a);
  }

  lemma MovedBack(config: Config, t: Store)
    requires BillingInv(t) && t.checkouts.Keys == {1} && t.checkouts[1].status == Complete
    ensures var u := Step(config, false, t, Publishing(1, "cs_1", "url", 100));
      1 in u.checkouts && u.checkouts[1].status == Opened && u.checkouts[1].completed.Some?
    ensures var u := Step(config, false, t, Rejecting(1, 2));
      1 in u.checkouts && u.checkouts[1].status == Expired && u.checkouts[1].completed.Some?
  {
    ShapeOf(t, 1);
    hide BillingInv;
  }

  /** The request publishes: the completed checkout is open again. */
  lemma Reopened(config: Config)
    ensures var t := Run(config, false, EMPTY_STORE, [PREPARE, Completion(config), Publishing(1, "cs_1", "url", 100)]);
      1 in t.checkouts && t.checkouts[1].status == Opened && t.checkouts[1].completed.Some?
    ensures !RunForward(config, false, [PREPARE, Completion(config), Publishing(1, "cs_1", "url", 100)])
  {
    var actions := [PREPARE, Completion(config), Publishing(1, "cs_1", "url", 100)];
    var t := CompletedEarly(config);
    assert actions[..2] == [PREPARE, Completion(config)] && actions[..3] == actions;
    assert BillingInv(t) by { EmptyInv(); RunKeeps(config, false, EMPTY_STORE, actions[..2]); }
    hide Step, BillingInv;
    MovedBack(config, t);
    assert Forward(After(config, false, actions, 2).checkouts, After(config, false, actions, 3).checkouts) ==> false;
  }

  /** The provider had rejected the request: the completed checkout expires. */
  lemma Discarded(config: Config)
    ensures var t := Run(config, false, EMPTY_STORE, [PREPARE, Completion(config), Rejecting(1, 2)]);
      1 in t.checkouts && t.checkouts[1].status == Expired && t.checkouts[1].completed.Some?
    ensures !RunForward(config, false, [PREPARE, Completion(config), Rejecting(1, 2)])
  {
    var actions := [PREPARE, Completion(config), Rejecting(1, 2)];
    var t := CompletedEarly(config);
    assert actions[..2] == [PREPARE, Completion(config)] && actions[..3] == actions;
    assert BillingInv(t) by { EmptyInv(); RunKeeps(config, false, EMPTY_STORE, actions[..2]); }
    hide Step, BillingInv;
    MovedBack(config, t);
    assert Forward(After(config, false, actions, 2).checkouts, After(config, false, actions, 3).checkouts) ==> false;
  }

  /** So all runs move only forward exactly when the locked reads refresh the session's image. */
  lemma StatusForwardExactlyWhenRefreshed(config: Config, refreshes: bool)
    ensures (forall actions :: RunForward(config, refreshes, actions)) <==> refreshes
  {
    hide RunForward, Run;
    if refreshes {
      forall actions ensures RunForward(config, true, actions) {
        RefreshedRunForward(config, actions);
      }
    } else {
      Reopened(config);
    }
  }

  // ---------------------------------------------------------------- the completion stamp

  /** A checkout that has a completion time is complete. */
  ghost predicate Stamped(cs: Checkouts) {
    forall i | i in cs && cs[i].completed.Some? :: cs[i].status == Complete
  }

  /** With refreshed reads a completion time marks exactly the completed checkouts. */
  lemma {:induction false} StampMarksCompletion(config: Config, actions: seq<Action>, i: Id)
    requires i in Run(config, true, EMPTY_STORE, actions).checkouts
    ensures var c := Run(config, true, EMPTY_STORE, actions).checkouts[i]; c.completed.Some? <==> c.status == Complete
  {
    EmptyInv();
    RunKeeps(config, true, EMPTY_STORE, actions);
    ShapeOf(Run(config, true, EMPTY_STORE, actions), i);
    StampedRuns(config, actions);
    hide Run, BillingInv;
  }

  lemma {:induction false} StampedRuns(config: Config, actions: seq<Action>)
    ensures Stamped(Run(config, true, EMPTY_STORE, actions).checkouts)
  {
    hide Step;
    if actions != [] {
      StampedRuns(config, actions[..|actions| - 1]);
      StampedStep(config, Run(config, true, EMPTY_STORE, actions[..|actions| - 1]), actions[|actions| - 1]);
    }
  }

  lemma StampedStep(config: Config, s: Store, a: Action)
    requires Stamped(s.checkouts)
    ensures Stamped(Step(config, true, s, a).checkouts)
  {
    hide FindKey, FindOngoing, FindCurrent, FindPaid, FindRemote, FindLocal, MetadataFits, AnyKey, Upsert;
    match a {
      case Receiving(e, answer, now) => StampedProcess(config, s, e, answer, now); hide Process;
      case Syncing(_, snapshot, now) => StampedSync(config, s, snapshot, now); hide Sync;
      case _ =>
    }
  }

  lemma StampedSync(config: Config, s: Store, snapshot: Snapshot, now: Time)
    requires Stamped(s.checkouts)
    ensures match Sync(config, s, snapshot, now)
      case SyncedTo(_, t) => Stamped(t.checkouts)
      case _ => true
  {
    hide FindRemote, FindLocal, MetadataFits, AnyKey;
  }

  lemma StampedProcess(config: Config, s: Store, e: Event, answer: Option<Snapshot>, now: Time)
    requires Stamped(s.checkouts)
    ensures Stamped(Process(config, s, e, answer, now).0.checkouts)
  {
    hide Sync, StoreInvoice, Stamped;
    match e.body {
      case SubscriptionChanged(deleted, changed) =>
        if deleted || answer.Some? {
          StampedSync(config, s, if deleted then changed else answer.value, now);
        }
      case CheckoutEnded(ended, expired) =>
        StampedEnd(config, s, ended, expired, now);
        hide EndCheckout;
      case InvoiceChanged(invoice, remote) =>
        if answer.Some? {
          StampedSync(config, s, answer.value, now);
        }
        if remote.Some? {
          var held := ResolveHolder(config, s, remote.value, answer, now);
          if held.SyncedTo? && held.id in held.store.subscriptions {
            InvoiceLeavesCheckouts(held.store, DeliveryTo(held.store, held.id, invoice, e.id, e.time));
          }
        }
      case Unhandled =>
    }
  }

  lemma StampedEnd(config: Config, s: Store, ended: CheckoutObject, expired: bool, now: Time)
    requires Stamped(s.checkouts)
    ensures match EndCheckout(config, s, ended, expired, now)
      case Failed => true
      case Done(t, _) => Stamped(t.checkouts)
  {
  }
}
