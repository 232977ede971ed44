/** The adjustment ledger as the source of the materialised ceilings. */
module AdjustmentTheorems {
  import opened CreditModel
  import opened CreditLedger
  import LedgerLemmas
  import opened Execution
  import opened ExecutionRuns
  import opened RunLemmas
  import opened RunTheorems

  // ---------------------------------------------------------------- the chain of rows

  lemma {:induction false} DeltaTotalSkips(adjustments: seq<Adjustment>, i: nat, j: nat, account: AccountKey)
    requires i <= j <= |adjustments|
    requires forall k | i <= k < j :: adjustments[k].account != account
    ensures DeltaTotal(adjustments[..j], account) == DeltaTotal(adjustments[..i], account)
  {
    if i == j {
    } else {
      DeltaTotalSkips(adjustments, i, j - 1, account);
      assert adjustments[..j][..j - 1] == adjustments[..j - 1];
    }
  }

  /** Two successive rows of one account, under one entitlement limit, join up. */
  lemma RowsJoin(adjustments: seq<Adjustment>, audits: seq<Audit>, i: nat, j: nat)
    requires AdjustmentsChained(adjustments, audits) && i < j < |adjustments|
    requires adjustments[i].account == adjustments[j].account && adjustments[i].base == adjustments[j].base
    requires forall k | i < k < j :: adjustments[k].account != adjustments[i].account
    ensures adjustments[j].before == adjustments[i].after
  {
    assert ChainedAt(adjustments, i) && ChainedAt(adjustments, j);
    DeltaTotalSkips(adjustments, i + 1, j, adjustments[i].account);
    assert adjustments[..i + 1][..i] == adjustments[..i];
  }

  /** After every run each row extends its account's chain, has its audit row, and is the only row of its key. */
  lemma {:induction false} LedgerIsAChain(timeout: int, actions: seq<Action>, i: nat)
    requires i < |Run(InitialWorld(timeout), actions).store.ledger.adjustments|
    ensures var l := Run(InitialWorld(timeout), actions).store.ledger;
      var row := l.adjustments[i];
      && row.before == row.base + DeltaTotal(l.adjustments[..i], row.account)
      && row.after == row.before + row.delta
      && row.reserved + row.consumed <= row.before && row.reserved + row.consumed <= row.after
      && i < |l.audits| && l.audits[i] == AuditOf(row)
      && (forall j | 0 <= j < i :: l.adjustments[j].key != row.key)
  {
    hide WorldInv, StoreInv, Run, InitialWorld, DeltaTotal;
    Reachable(timeout, actions);
    var s := Run(InitialWorld(timeout), actions).store;
    StoreInvOf(Run(InitialWorld(timeout), actions));
    CountersOf(s);
    assert ChainedAt(s.ledger.adjustments, i);
  }

  /** Repeating an accepted adjustment returns its row and adds nothing; changing it under the same key is refused. */
  lemma AdjustReplay(l: Ledger, key: Key, delta: int, reason: AdjustmentReason, access: Access, later: Access, delta': int, reason': AdjustmentReason)
    requires LedgerInv(l) && Adjust(l, true, true, key, delta, reason, access).1.Adjusted?
    ensures var (l', r) := Adjust(l, true, true, key, delta, reason, access);
      && Adjust(l', true, true, key, delta, reason, later) == (l', Adjusted(r.adjustment, r.remainingAfter, true))
      && ((delta', reason') != (delta, reason) && delta' != 0 && -1000 <= delta' <= 1000 ==>
            Adjust(l', true, true, key, delta', reason', later) == (l', AdjustRefused(IdempotencyConflict)))
  {
    hide IndexExact, EntriesSound, CountersExact, WithinLimits, DeltaTotal;
  }

  // ---------------------------------------------------------------- when an adjustment is granted

  function UsedNow(l: Ledger, account: AccountKey): int {
    if account in l.accounts then l.accounts[account].reserved + l.accounts[account].consumed else 0
  }

  /** Use fits under the ceiling before the change and after it, in either direction. */
  predicate Fits(l: Ledger, account: AccountKey, base: int, delta: int) {
    var total := base + DeltaTotal(l.adjustments, account);
    UsedNow(l, account) <= total && UsedNow(l, account) <= total + delta && 0 <= total + delta
  }

  predicate Allowed(delta: int) { delta != 0 && -1000 <= delta <= 1000 }

  /** The account's row exists, or the database takes a new one. */
  predicate HasAccount(l: Ledger, account: AccountKey) {
    account in l.accounts || account.periodStart < account.periodEnd
  }

  /**
    Under a new key an adjustment, up or down, is granted exactly under these conditions; it then sets the ceiling to
    base plus all deltas, reports that minus use as remaining, and changes no other account and no entry.
    */
  lemma AdjustsExactlyWhen(l: Ledger, actorValid: bool, businessKnown: bool, key: Key, delta: int, reason: AdjustmentReason, access: Access)
    requires forall i | 0 <= i < |l.adjustments| :: l.adjustments[i].key != key
    ensures var (l', r) := Adjust(l, actorValid, businessKnown, key, delta, reason, access);
      if actorValid && businessKnown && Allowed(delta) && access.Granted? && access.base.Some? && access.base.value >= 0
         && HasAccount(l, access.AccountOf(key.business)) && Fits(l, access.AccountOf(key.business), access.base.value, delta)
      then
        var (account, base) := (access.AccountOf(key.business), access.base.value);
        var (total, used) := (base + DeltaTotal(l.adjustments, account), UsedNow(l, account));
        var (reserved, consumed) := if account in l.accounts then (l.accounts[account].reserved, l.accounts[account].consumed) else (0, 0);
        && r == Adjusted(Adjustment(key, account, delta, reason, base, total, total + delta, reserved, consumed), total + delta - used, false)
        && l' == l.(accounts := l.accounts[account := Account(Some(total + delta), reserved, consumed)],
                    adjustments := l.adjustments + [r.adjustment],
                    audits := l.audits + [Audit(account, delta, total, total + delta)])
      else l' == l && r.AdjustRefused?
  {
    hide DeltaTotal;
  }

  /** Which refusal a new adjustment gets: the first that applies. */
  lemma AdjustRefusals(l: Ledger, actorValid: bool, businessKnown: bool, key: Key, delta: int, reason: AdjustmentReason, access: Access)
    requires forall i | 0 <= i < |l.adjustments| :: l.adjustments[i].key != key
    ensures var r := Adjust(l, actorValid, businessKnown, key, delta, reason, access).1;
      && (!actorValid ==> r == AdjustRefused(ActorForbidden))
      && (actorValid && !Allowed(delta) ==> r == AdjustRefused(AdjustmentConflict))
      && (actorValid && Allowed(delta) && !businessKnown ==> r == AdjustRefused(BusinessNotFound))
      && (actorValid && Allowed(delta) && businessKnown ==>
            && (access.NoSubscription? || access.Inactive? || access.NoPeriod? ==> r == AdjustRefused(SubscriptionUnavailable))
            && (access.Denied? ==> r == AdjustRefused(EntitlementUnavailable))
            && (access.Granted? && access.base.None? ==> r == AdjustRefused(UnlimitedEntitlement))
            && (access.Granted? && access.base.Some? ==>
                  var (account, base) := (access.AccountOf(key.business), access.base.value);
                  if !HasAccount(l, account) || (account !in l.accounts && base < 0) then r == AdjustRefused(RowRejected)
                  else if !Fits(l, account, base, delta) then r == AdjustRefused(AdjustmentConflict)
                  else base < 0 ==> r == AdjustRefused(RowRejected)))
  {
    hide DeltaTotal;
  }

  /** The action adjusts credit under a new key and every condition for granting it holds. */
  ghost predicate Grants(l: Ledger, a: Action) {
    && a.AdjustCredit? && a.actorValid && a.businessKnown && Allowed(a.delta)
    && a.adjustmentAccess.Granted? && a.adjustmentAccess.base.Some? && a.adjustmentAccess.base.value >= 0
    && (forall i | 0 <= i < |l.adjustments| :: l.adjustments[i].key != a.adjustmentKey)
    && var account := a.adjustmentAccess.AccountOf(a.adjustmentKey.business);
    && HasAccount(l, account) && Fits(l, account, a.adjustmentAccess.base.value, a.delta)
  }

  /** The keys and deltas of the adjustments that a run granted, in order. */
  ghost function Granted(timeout: int, actions: seq<Action>): seq<(Key, int, AdjustmentReason)> {
    if actions == [] then []
    else
      var (before, a) := (actions[..|actions| - 1], actions[|actions| - 1]);
      Granted(timeout, before)
      + if Grants(Run(InitialWorld(timeout), before).store.ledger, a) then [(a.adjustmentKey, a.delta, a.reason)] else []
  }

  function Recorded(adjustments: seq<Adjustment>): seq<(Key, int, AdjustmentReason)> {
    seq(|adjustments|, i requires 0 <= i < |adjustments| => (adjustments[i].key, adjustments[i].delta, adjustments[i].reason))
  }

  lemma StepRecords(w: World, a: Action)
    ensures var (l, l') := (w.store.ledger, Step(w, a).store.ledger);
      Recorded(l'.adjustments) == Recorded(l.adjustments)
        + if Grants(l, a) then [(a.adjustmentKey, a.delta, a.reason)] else []
  {
    hide Fits, HasAccount, Grants;
    if a.AdjustCredit? {
      AdjustRecords(w.store.ledger, a);
    } else {
      OthersAdjustNothing(w, a);
      NothingGranted(w.store.ledger, a);
    }
    hide Step, Adjust;
  }

  lemma NothingGranted(l: Ledger, a: Action)
    requires !a.AdjustCredit?
    ensures !Grants(l, a)
  {
  }

  lemma OthersAdjustNothing(w: World, a: Action)
    requires !a.AdjustCredit?
    ensures Step(w, a).store.ledger.adjustments == w.store.ledger.adjustments
  {
    hide DeltaTotal, EffectiveLimit;
  }

  lemma AdjustRecords(l: Ledger, a: Action)
    requires a.AdjustCredit?
    ensures var l' := Adjust(l, a.actorValid, a.businessKnown, a.adjustmentKey, a.delta, a.reason, a.adjustmentAccess).0;
      Recorded(l'.adjustments) == Recorded(l.adjustments) + if Grants(l, a) then [(a.adjustmentKey, a.delta, a.reason)] else []
  {
    if forall i | 0 <= i < |l.adjustments| :: l.adjustments[i].key != a.adjustmentKey {
      AdjustsExactlyWhen(l, a.actorValid, a.businessKnown, a.adjustmentKey, a.delta, a.reason, a.adjustmentAccess);
      hide Adjust, Fits, HasAccount;
    } else {
      KnownKeyAddsNothing(l, a);
    }
  }

  lemma KnownKeyAddsNothing(l: Ledger, a: Action)
    requires a.AdjustCredit? && exists i :: 0 <= i < |l.adjustments| && l.adjustments[i].key == a.adjustmentKey
    ensures Adjust(l, a.actorValid, a.businessKnown, a.adjustmentKey, a.delta, a.reason, a.adjustmentAccess).0 == l
  {
    hide DeltaTotal, AdjustAccount;
  }

  /** The adjustment ledger of any run lists exactly the adjustments whose conditions held when they were asked for. */
  lemma {:induction false} LedgerListsTheGrants(timeout: int, actions: seq<Action>)
    ensures Recorded(Run(InitialWorld(timeout), actions).store.ledger.adjustments) == Granted(timeout, actions)
  {
    hide Step, Grants, Recorded;
    if actions == [] {
      NothingRecorded();
    } else {
      LedgerListsTheGrants(timeout, actions[..|actions| - 1]);
      StepRecords(Run(InitialWorld(timeout), actions[..|actions| - 1]), actions[|actions| - 1]);
    }
  }

  lemma NothingRecorded()
    ensures Recorded(EMPTY_LEDGER.adjustments) == []
  {
  }

  // ---------------------------------------------------------------- the materialised ceiling

  /** The account's ceiling is its entitlement limit plus every delta recorded for it. */
  predicate CeilingFollows(l: Ledger, account: AccountKey, base: int) {
    account in l.accounts ==> l.accounts[account].limit == Some(base + DeltaTotal(l.adjustments, account))
  }

  /** Whatever this access grants for the account, it grants with this entitlement limit. */
  predicate GrantsBase(access: Access, account: AccountKey, base: int) {
    access.Granted? && access.AccountOf(account.business) == account ==> access.base == Some(base)
  }

  predicate UsesBase(a: Action, account: AccountKey, base: int) {
    match a
    case TakeReserve(_, access) => GrantsBase(access, account, base)
    case AdjustCredit(_, _, _, _, _, access) => GrantsBase(access, account, base)
    case _ => true
  }

  lemma ReserveFollows(l: Ledger, id: Id, key: Key, access: Access, now: Time, account: AccountKey, base: int)
    requires CeilingFollows(l, account, base) && GrantsBase(access, account, base)
    ensures CeilingFollows(Reserve(l, id, key, access, now).0, account, base)
  {
    hide DeltaTotal;
  }

  lemma AdjustFollows(l: Ledger, actorValid: bool, businessKnown: bool, key: Key, delta: int, reason: AdjustmentReason, access: Access, account: AccountKey, base: int)
    requires CeilingFollows(l, account, base) && GrantsBase(access, account, base)
    ensures CeilingFollows(Adjust(l, actorValid, businessKnown, key, delta, reason, access).0, account, base)
  {
    hide DeltaTotal, FindAdjustment;
    var (l', r) := Adjust(l, actorValid, businessKnown, key, delta, reason, access);
    if r.Adjusted? {
      LedgerLemmas.DeltaTotalAppend(l.adjustments, r.adjustment, account);
    }
  }

  lemma SettleFollows(w: World, a: Action, account: AccountKey, base: int)
    requires CeilingFollows(w.store.ledger, account, base) && !a.TakeReserve? && !a.AdjustCredit?
    ensures CeilingFollows(Step(w, a).store.ledger, account, base)
  {
    hide DeltaTotal;
    assert Step(w, a).store.ledger.adjustments == w.store.ledger.adjustments;
  }

  lemma StepFollows(w: World, a: Action, account: AccountKey, base: int)
    requires CeilingFollows(w.store.ledger, account, base) && UsesBase(a, account, base)
    ensures CeilingFollows(Step(w, a).store.ledger, account, base)
  {
    hide CeilingFollows, Reserve, Adjust;
    match a
    case TakeReserve(c, access) =>
      if PhaseOf(w, c).Reserving? {
        ReserveFollows(w.store.ledger, w.store.nextId, PhaseOf(w, c).key, access, PhaseOf(w, c).now, account, base);
      }
    case AdjustCredit(actorValid, businessKnown, key, delta, reason, access) =>
      AdjustFollows(w.store.ledger, actorValid, businessKnown, key, delta, reason, access, account, base);
    case _ => SettleFollows(w, a, account, base);
  }

  /** While the entitlement limit of an account does not change, its ceiling is that limit plus the sum of its deltas. */
  lemma {:induction false} CeilingIsSumOfDeltas(timeout: int, actions: seq<Action>, account: AccountKey, base: int)
    requires forall a | a in actions :: UsesBase(a, account, base)
    ensures CeilingFollows(Run(InitialWorld(timeout), actions).store.ledger, account, base)
  {
    hide CeilingFollows, Step, UsesBase;
    if actions == [] {
      assert CeilingFollows(EMPTY_LEDGER, account, base) by { NoAccountFollows(account, base); }
    } else {
      CeilingIsSumOfDeltas(timeout, actions[..|actions| - 1], account, base);
      StepFollows(Run(InitialWorld(timeout), actions[..|actions| - 1]), actions[|actions| - 1], account, base);
    }
  }

  lemma NoAccountFollows(account: AccountKey, base: int)
    ensures CeilingFollows(EMPTY_LEDGER, account, base)
  {
  }

  /** What a reservation reports as remaining is what the usage page recomputes from the adjustment ledger. */
  lemma {:induction false} RemainingAgrees(timeout: int, actions: seq<Action>, id: Id, base: int)
    requires Locked(Run(InitialWorld(timeout), actions).store.ledger, id)
    requires forall a | a in actions :: UsesBase(a, Run(InitialWorld(timeout), actions).store.ledger.entries[id].account, base)
    ensures var l := Run(InitialWorld(timeout), actions).store.ledger;
      var e := l.entries[id];
      UsageRemaining(l, e.account, Some(base)) == UsageLeft(SnapshotOf(id, e, l.accounts[e.account], true).remaining)
  {
    hide WorldInv, StoreInv, Run, InitialWorld, DeltaTotal, UsesBase;
    var w := Run(InitialWorld(timeout), actions);
    var l := w.store.ledger;
    CeilingIsSumOfDeltas(timeout, actions, l.entries[id].account, base);
    Reachable(timeout, actions);
    StoreInvOf(w);
    CountersOf(w.store);
  }

  /** The usage page shows what is left of base plus deltas, or zero for an account past it; a negative ceiling is an error. */
  lemma UsageShows(l: Ledger, account: AccountKey, base: int)
    requires account in l.accounts
    ensures UsageRemaining(l, account, None) == UsageLeft(None)
    ensures var ceiling := base + DeltaTotal(l.adjustments, account);
      var left := ceiling - l.accounts[account].reserved - l.accounts[account].consumed;
      UsageRemaining(l, account, Some(base)) == if ceiling < 0 then UsageFails else UsageLeft(Some(if left < 0 then 0 else left))
  {
    hide DeltaTotal;
  }

  // ---------------------------------------------------------------- the entitlement limit itself

  /** A new reservation never takes an account past the entitlement in force at that moment. */
  lemma ReservationWithinEntitlement(l: Ledger, id: Id, key: Key, access: Access, now: Time)
    requires LedgerInv(l) && Reserve(l, id, key, access, now).1.Reservation?
    requires !Reserve(l, id, key, access, now).1.snapshot.replayed
    ensures access.Granted?
    ensures var l' := Reserve(l, id, key, access, now).0;
      var account := access.AccountOf(key.business);
      var limit := EffectiveLimit(l'.adjustments, account, access.base);
      && account in l'.accounts
      && l'.accounts[account].limit == limit
      && (limit.Some? ==> l'.accounts[account].Used() <= limit.value)
  {
    hide IndexExact, EntriesSound, CountersExact, WithinLimits, AdjustmentsChained, DeltaTotal;
  }
}
