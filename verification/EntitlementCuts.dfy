/** Usage against the entitlement in force: exactly which runs keep it within, and a run that does not. */
module EntitlementCuts {
  import opened CreditModel
  import opened CreditLedger
  import LedgerLemmas
  import opened Execution
  import opened ExecutionRuns
  import opened StrandedCredits

  function UsedBy(l: Ledger, account: AccountKey): int {
    if account in l.accounts then l.accounts[account].Used() else 0
  }

  /**
    The base limit that the entitlement service reports for the account in this step, if the step asks for it: a
    reservation asks unless its key has an entry, an adjustment unless it is refused or replayed before.
    */
  function Reported(w: World, a: Action, account: AccountKey): Option<Option<int>> {
    match a
    case TakeReserve(c, access) =>
      if PhaseOf(w, c).Reserving? && PhaseOf(w, c).key !in w.store.ledger.entryIndex
         && access.Granted? && access.AccountOf(PhaseOf(w, c).key.business) == account
      then Some(access.base) else None
    case AdjustCredit(actorValid, businessKnown, key, delta, _, access) =>
      if actorValid && delta != 0 && -1000 <= delta <= 1000 && businessKnown
         && FindAdjustment(w.store.ledger.adjustments, key).None?
         && access.Granted? && access.AccountOf(key.business) == account
      then Some(access.base) else None
    case _ => None
  }

  /** The latest report for the account in a run. */
  function InForce(timeout: int, actions: seq<Action>, account: AccountKey): Option<Option<int>> {
    if actions == [] then None
    else
      var before := actions[..|actions| - 1];
      var report := Reported(Run(InitialWorld(timeout), before), actions[|actions| - 1], account);
      if report.Some? then report else InForce(timeout, before, account)
  }

  /** Usage is at most the base in force plus all adjustments; an unlimited or unreported base bounds nothing. */
  predicate Within(l: Ledger, account: AccountKey, base: Option<Option<int>>) {
    base.Some? && base.value.Some? ==> UsedBy(l, account) <= base.value.value + DeltaTotal(l.adjustments, account)
  }

  /** The step learns of a base that leaves less than is used already. */
  predicate CutsTooDeep(w: World, a: Action, account: AccountKey) {
    var report := Reported(w, a, account);
    report.Some? && !Within(w.store.ledger, account, report)
  }

  // ---------------------------------------------------------------- one step

  lemma ReserveWithin(l: Ledger, id: Id, key: Key, access: Access, now: Time, account: AccountKey)
    requires access.Granted? && access.AccountOf(key.business) == account && key !in l.entryIndex
    ensures Within(Reserve(l, id, key, access, now).0, account, Some(access.base)) <==> Within(l, account, Some(access.base))
  {
    hide DeltaTotal;
  }

  lemma ReserveElsewhere(l: Ledger, id: Id, key: Key, access: Access, now: Time, account: AccountKey)
    requires key in l.entryIndex || !access.Granted? || access.AccountOf(key.business) != account
    ensures var l' := Reserve(l, id, key, access, now).0;
      UsedBy(l', account) == UsedBy(l, account) && l'.adjustments == l.adjustments
  {
    hide DeltaTotal;
  }

  lemma AdjustWithin(l: Ledger, key: Key, account: AccountKey, base: int, delta: int, reason: AdjustmentReason)
    ensures Within(AdjustAccount(l, key, account, base, delta, reason).0, account, Some(Some(base)))
       <==> Within(l, account, Some(Some(base)))
  {
    hide DeltaTotal;
    var (l', r) := AdjustAccount(l, key, account, base, delta, reason);
    if r.Adjusted? {
      LedgerLemmas.DeltaTotalAppend(l.adjustments, r.adjustment, account);
    }
  }

  lemma AdjustElsewhere(l: Ledger, key: Key, other: AccountKey, base: int, delta: int, reason: AdjustmentReason, account: AccountKey)
    requires other != account
    ensures var l' := AdjustAccount(l, key, other, base, delta, reason).0;
      UsedBy(l', account) == UsedBy(l, account) && DeltaTotal(l'.adjustments, account) == DeltaTotal(l.adjustments, account)
  {
    hide DeltaTotal;
    var (l', r) := AdjustAccount(l, key, other, base, delta, reason);
    if r.Adjusted? {
      LedgerLemmas.DeltaTotalAppend(l.adjustments, r.adjustment, account);
    }
  }

  /** Settlements never add to what an account uses, and write no adjustment. */
  lemma SettlesWithin(w: World, a: Action, account: AccountKey)
    requires !a.TakeReserve? && !a.AdjustCredit?
    ensures Step(w, a).store.ledger.adjustments == w.store.ledger.adjustments
    ensures UsedBy(Step(w, a).store.ledger, account) <= UsedBy(w.store.ledger, account)
  {
  }

  /** A report leaves the account within its base exactly when it was within it before; other steps never take it out. */
  lemma StepWithin(w: World, a: Action, account: AccountKey, base: Option<Option<int>>)
    ensures var report := Reported(w, a, account);
      if report.Some? then Within(Step(w, a).store.ledger, account, report) <==> Within(w.store.ledger, account, report)
      else Within(w.store.ledger, account, base) ==> Within(Step(w, a).store.ledger, account, base)
  {
    hide DeltaTotal, FindAdjustment, Reserve, AdjustAccount, UsedBy;
    match a
    case TakeReserve(c, access) =>
      if PhaseOf(w, c).Reserving? {
        var Reserving(key, message, now) := PhaseOf(w, c);
        if Reported(w, a, account).Some? {
          ReserveWithin(w.store.ledger, w.store.nextId, key, access, now, account);
          SameLedger(w.store, key, access, now);
        } else {
          ReserveElsewhere(w.store.ledger, w.store.nextId, key, access, now, account);
        }
      }
    case AdjustCredit(actorValid, businessKnown, key, delta, reason, access) =>
      if access.Granted? && access.base.Some? {
        if access.AccountOf(key.business) == account {
          AdjustWithin(w.store.ledger, key, account, access.base.value, delta, reason);
        } else {
          AdjustElsewhere(w.store.ledger, key, access.AccountOf(key.business), access.base.value, delta, reason, account);
        }
      }
    case _ => SettlesWithin(w, a, account); hide Step;
  }

  lemma SameLedger(s: Store, key: Key, access: Access, now: Time)
    requires key !in s.ledger.entryIndex
    ensures ReserveCredit(s, key, access, now).0.ledger == Reserve(s.ledger, s.nextId, key, access, now).0
  {
    hide EffectiveLimit;
  }

  // ---------------------------------------------------------------- whole runs

  /** At every point of the run, usage is within the base then in force. */
  ghost predicate WithinThroughout(timeout: int, actions: seq<Action>, account: AccountKey) {
    forall k: nat | k <= |actions| :: Within(Before(timeout, actions, k).store.ledger, account, InForce(timeout, actions[..k], account))
  }

  ghost predicate NeverCutTooDeep(timeout: int, actions: seq<Action>, account: AccountKey) {
    forall k: nat | k < |actions| :: !CutsTooDeep(Before(timeout, actions, k), actions[k], account)
  }

  lemma InForceNext(timeout: int, actions: seq<Action>, account: AccountKey, k: nat)
    requires k < |actions|
    ensures var report := Reported(Before(timeout, actions, k), actions[k], account);
      InForce(timeout, actions[..k + 1], account) == if report.Some? then report else InForce(timeout, actions[..k], account)
  {
    hide Reported, Run;
    assert actions[..k + 1][..k] == actions[..k];
  }

  lemma NextWithin(timeout: int, actions: seq<Action>, account: AccountKey, k: nat)
    requires k < |actions|
    requires Within(Before(timeout, actions, k).store.ledger, account, InForce(timeout, actions[..k], account))
    ensures Within(Before(timeout, actions, k + 1).store.ledger, account, InForce(timeout, actions[..k + 1], account))
       <==> !CutsTooDeep(Before(timeout, actions, k), actions[k], account)
  {
    hide Before, Reported, Within, Step, InForce;
    BeforeNext(timeout, actions, k);
    InForceNext(timeout, actions, account, k);
    StepWithin(Before(timeout, actions, k), actions[k], account, InForce(timeout, actions[..k], account));
  }

  lemma {:induction false} WithinSoFar(timeout: int, actions: seq<Action>, account: AccountKey, k: nat)
    requires k <= |actions| && NeverCutTooDeep(timeout, actions, account)
    ensures Within(Before(timeout, actions, k).store.ledger, account, InForce(timeout, actions[..k], account))
  {
    hide Before, CutsTooDeep, Within;
    if k == 0 {
      NothingInForce(timeout, actions[..0], Before(timeout, actions, 0).store.ledger, account);
    } else {
      WithinSoFar(timeout, actions, account, k - 1);
      NextWithin(timeout, actions, account, k - 1);
    }
  }

  lemma NothingInForce(timeout: int, actions: seq<Action>, l: Ledger, account: AccountKey)
    requires actions == []
    ensures Within(l, account, InForce(timeout, actions, account))
  {
  }

  /**
    The documented promise, on runs: usage stays within the entitlement in force throughout a run if and only if no
    step of it learns of a base that leaves less than is used at that moment.
    */
  lemma {:induction false} WithinExactlyWhen(timeout: int, actions: seq<Action>, account: AccountKey)
    ensures WithinThroughout(timeout, actions, account) <==> NeverCutTooDeep(timeout, actions, account)
  {
    hide Before, CutsTooDeep, Within, InForce;
    if WithinThroughout(timeout, actions, account) {
      forall k: nat | k < |actions| ensures !CutsTooDeep(Before(timeout, actions, k), actions[k], account) {
        NextWithin(timeout, actions, account, k);
      }
    }
    if NeverCutTooDeep(timeout, actions, account) {
      forall k: nat | k <= |actions|
        ensures Within(Before(timeout, actions, k).store.ledger, account, InForce(timeout, actions[..k], account))
      {
        WithinSoFar(timeout, actions, account, k);
      }
    }
  }

  // ---------------------------------------------------------------- a run that is not within

  const CUT: Access := Granted(5, 0, 100, Some(0))

  /** One credit is reserved under a base of fifteen; the next reservation learns that the base is now zero. */
  function CutRun(key: Key, next: Key): seq<Action> {
    [ NewConversation(Conversation(key.business, Chat, true)),
      Begin(1, key, 0, 7, "q"),
      TakeReserve(1, OFFER),
      Begin(2, next, 0, 7, "r"),
      TakeReserve(2, CUT) ]
  }

  lemma FirstCharge(key: Key)
    ensures var (l, r) := Reserve(EMPTY_LEDGER, 2, key, OFFER, 0);
      && l.accounts == map[OFFER.AccountOf(key.business) := Account(Some(15), 1, 0)]
      && l.adjustments == [] && l.entryIndex == map[key := 2]
      && r.Reservation? && !r.snapshot.replayed
  {
    var account := OFFER.AccountOf(key.business);
    assert Reserve(EMPTY_LEDGER, 2, key, OFFER, 0) == Grant(EMPTY_LEDGER, 2, key, account, Some(15), 0);
    hide Reserve;
    FirstLimit(account);
    GrantsFirst(key, account);
  }

  lemma GrantsFirst(key: Key, account: AccountKey)
    requires EffectiveLimit([], account, Some(15)) == Some(15) && account.periodStart < account.periodEnd
    ensures var (l, r) := Grant(EMPTY_LEDGER, 2, key, account, Some(15), 0);
      && l.accounts == map[account := Account(Some(15), 1, 0)]
      && l.adjustments == [] && l.entryIndex == map[key := 2]
      && r.Reservation? && !r.snapshot.replayed
  {
    hide EffectiveLimit;
  }

  /** The promise fails: the run ends with one credit in use under an effective limit of zero. */
  lemma OverEntitlementHappens(timeout: int, key: Key, next: Key)
    requires next.business == key.business && next != key
    ensures var account := OFFER.AccountOf(key.business);
      var l := Run(InitialWorld(timeout), CutRun(key, next)).store.ledger;
      && InForce(timeout, CutRun(key, next), account) == Some(Some(0))
      && EffectiveLimit(l.adjustments, account, Some(0)) == Some(0)
      && account in l.accounts && l.accounts[account].Used() == 1
  {
    var actions, account := CutRun(key, next), OFFER.AccountOf(key.business);
    assert actions[..5] == actions;
    ReservedUnderFifteen(timeout, key, next);
    var w := Before(timeout, actions, 3);
    BeforeNext(timeout, actions, 3);
    SecondBegins(w, key, next);
    var w' := Before(timeout, actions, 4);
    BeforeNext(timeout, actions, 4);
    InForceNext(timeout, actions, account, 4);
    CutRefused(w', next, account);
    hide Before, Step, InForce, Run;
  }

  lemma ReservedUnderFifteen(timeout: int, key: Key, next: Key)
    ensures var w := Before(timeout, CutRun(key, next), 3);
      && w.store.ledger.accounts == map[OFFER.AccountOf(key.business) := Account(Some(15), 1, 0)]
      && w.store.ledger.adjustments == [] && w.store.ledger.entryIndex == map[key := 2]
      && w.store.messageIndex == map[key := 1] && PhaseOf(w, 2).Idle?
      && w.store.conversations == map[0 := Conversation(key.business, Chat, true)]
  {
    hide Step, Run, Reserve, InitialWorld, Before;
    FirstThree(timeout, CutRun(key, next));
    BegunFirst(timeout, key);
    FirstCharge(key);
    Charged(Step(Step(InitialWorld(timeout), NewConversation(Conversation(key.business, Chat, true))), Begin(1, key, 0, 7, "q")), key);
  }

  lemma FirstThree(timeout: int, actions: seq<Action>)
    requires |actions| >= 3
    ensures Before(timeout, actions, 3) == Step(Step(Step(InitialWorld(timeout), actions[0]), actions[1]), actions[2])
  {
    hide Step, Run;
    assert Before(timeout, actions, 0) == InitialWorld(timeout) by { RunNothing(InitialWorld(timeout), actions[..0]); }
    BeforeNext(timeout, actions, 0);
    BeforeNext(timeout, actions, 1);
    BeforeNext(timeout, actions, 2);
  }

  lemma BegunFirst(timeout: int, key: Key)
    ensures var w := Step(Step(InitialWorld(timeout), NewConversation(Conversation(key.business, Chat, true))), Begin(1, key, 0, 7, "q"));
      && PhaseOf(w, 1) == Reserving(key, 1, 0) && PhaseOf(w, 2).Idle?
      && w.store.nextId == 2 && w.store.ledger == EMPTY_LEDGER && w.store.messageIndex == map[key := 1]
      && w.store.conversations == map[0 := Conversation(key.business, Chat, true)]
  {
    var w := Step(InitialWorld(timeout), NewConversation(Conversation(key.business, Chat, true)));
    assert w.store.conversations == map[0 := Conversation(key.business, Chat, true)] && w.store.nextId == 1;
  }

  lemma Charged(w: World, key: Key)
    requires PhaseOf(w, 1) == Reserving(key, 1, 0) && w.store.nextId == 2 && w.store.ledger == EMPTY_LEDGER
    ensures var w' := Step(w, TakeReserve(1, OFFER));
      && w'.store == w.store.(ledger := Reserve(EMPTY_LEDGER, 2, key, OFFER, 0).0, nextId := 3)
      && PhaseOf(w', 2) == PhaseOf(w, 2)
  {
    FirstCharge(key);
    hide Reserve;
  }

  lemma SecondBegins(w: World, key: Key, next: Key)
    requires w.store.messageIndex == map[key := 1] && PhaseOf(w, 2).Idle? && next != key && next.business == key.business
    requires w.store.conversations == map[0 := Conversation(key.business, Chat, true)]
    ensures var w' := Step(w, Begin(2, next, 0, 7, "r"));
      w'.store.ledger == w.store.ledger && PhaseOf(w', 2).Reserving? && PhaseOf(w', 2).key == next
  {
  }

  lemma CutRefused(w: World, next: Key, account: AccountKey)
    requires PhaseOf(w, 2).Reserving? && PhaseOf(w, 2).key == next && CUT.AccountOf(next.business) == account
    requires w.store.ledger.accounts == map[account := Account(Some(15), 1, 0)]
    requires w.store.ledger.adjustments == [] && next !in w.store.ledger.entryIndex
    ensures Reported(w, TakeReserve(2, CUT), account) == Some(Some(0))
    ensures Step(w, TakeReserve(2, CUT)).store.ledger == w.store.ledger
  {
  }
}
