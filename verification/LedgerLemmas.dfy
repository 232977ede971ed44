/** What every ledger operation keeps, and what each one changes. */
module LedgerLemmas {
  import opened CreditModel
  import opened CreditLedger

  // ---------------------------------------------------------------- counting entries

  lemma EntriesOfSplit(entries: map<Id, Entry>, id: Id, e: Entry, account: AccountKey, status: EntryStatus)
    ensures EntriesOf(entries[id := e], account, status) - {id} == EntriesOf(entries, account, status) - {id}
    ensures id in EntriesOf(entries[id := e], account, status) <==> e.account == account && e.status == status
  {
  }

  lemma EntriesOfInsert(entries: map<Id, Entry>, id: Id, e: Entry, account: AccountKey, status: EntryStatus)
    requires id !in entries
    ensures |EntriesOf(entries[id := e], account, status)|
         == |EntriesOf(entries, account, status)| + (if e.account == account && e.status == status then 1 else 0)
  {
    EntriesOfSplit(entries, id, e, account, status);
    SplitSize(EntriesOf(entries[id := e], account, status), id);
    SplitSize(EntriesOf(entries, account, status), id);
  }

  lemma SplitSize(s: set<Id>, id: Id)
    ensures |s| == |s - {id}| + (if id in s then 1 else 0)
  {
    if id in s {
      assert s == s - {id} + {id};
    } else {
      assert s == s - {id};
    }
  }

  lemma EntriesOfMove(entries: map<Id, Entry>, id: Id, e: Entry, account: AccountKey, status: EntryStatus)
    requires id in entries && e.account == entries[id].account && e.status != entries[id].status
    ensures |EntriesOf(entries[id := e], account, status)| == |EntriesOf(entries, account, status)|
         + (if e.account == account && e.status == status then 1 else 0)
         - (if e.account == account && entries[id].status == status then 1 else 0)
  {
    EntriesOfSplit(entries, id, e, account, status);
    SplitSize(EntriesOf(entries[id := e], account, status), id);
    SplitSize(EntriesOf(entries, account, status), id);
  }

  lemma ReservedMeansCounted(l: Ledger, id: Id)
    requires EntriesSound(l.entries, l.accounts) && CountersExact(l.entries, l.accounts)
    requires id in l.entries && l.entries[id].status == Reserved
    ensures l.accounts[l.entries[id].account].reserved >= 1
  {
    assert id in EntriesOf(l.entries, l.entries[id].account, Reserved);
  }

  /** The counts of an account, whether or not its row exists yet. */
  lemma CountsOrZero(l: Ledger, account: AccountKey, base: Option<int>)
    requires EntriesSound(l.entries, l.accounts) && CountersExact(l.entries, l.accounts)
    ensures AccountOrNew(l, account, base).reserved == |EntriesOf(l.entries, account, Reserved)|
    ensures AccountOrNew(l, account, base).consumed == |EntriesOf(l.entries, account, Consumed)|
  {
    if account !in l.accounts {
      assert EntriesOf(l.entries, account, Reserved) == {};
      assert EntriesOf(l.entries, account, Consumed) == {};
    }
  }

  // ---------------------------------------------------------------- settlements

  /** Moving one entry out of RESERVED while the counters of its account follow. */
  lemma MoveCounters(entries: map<Id, Entry>, accounts: map<AccountKey, Account>, id: Id, e: Entry, a': Account)
    requires EntriesSound(entries, accounts) && CountersExact(entries, accounts)
    requires id in entries && entries[id].status == Reserved
    requires e.account == entries[id].account && e.status != Reserved
    requires a'.reserved == accounts[e.account].reserved - 1
    requires a'.consumed == accounts[e.account].consumed + (if e.status == Consumed then 1 else 0)
    ensures CountersExact(entries[id := e], accounts[e.account := a'])
  {
    var accounts' := accounts[e.account := a'];
    forall a | a in accounts'
      ensures accounts'[a].reserved == |EntriesOf(entries[id := e], a, Reserved)|
      ensures accounts'[a].consumed == |EntriesOf(entries[id := e], a, Consumed)|
    {
      EntriesOfMove(entries, id, e, a, Reserved);
      EntriesOfMove(entries, id, e, a, Consumed);
    }
  }

  lemma MoveIndex(entries: map<Id, Entry>, index: map<Key, Id>, id: Id, e: Entry)
    requires IndexExact(entries, index) && id in entries && entries[id].key == e.key
    ensures IndexExact(entries[id := e], index)
  {
  }

  lemma MarkConsumedKeeps(l: Ledger, id: Id, now: Time)
    requires LedgerInv(l) && id in l.entries && l.entries[id].status == Reserved
    ensures LedgerInv(MarkConsumed(l, id, now))
  {
    var l' := MarkConsumed(l, id, now);
    var e := l'.entries[id];
    MoveCounters(l.entries, l.accounts, id, e, l'.accounts[e.account]);
    MoveIndex(l.entries, l.entryIndex, id, e);
    InsertSound(l.entries, l.accounts, id, e, l'.accounts[e.account]);
    WriteAccountLimits(l.accounts, e.account, l'.accounts[e.account]);
  }

  lemma MarkReleasedKeeps(l: Ledger, id: Id, reason: ErrorCode, now: Time)
    requires LedgerInv(l) && id in l.entries && l.entries[id].status == Reserved
    ensures LedgerInv(MarkReleased(l, id, reason, now))
  {
    var l' := MarkReleased(l, id, reason, now);
    var e := l'.entries[id];
    MoveCounters(l.entries, l.accounts, id, e, l'.accounts[e.account]);
    MoveIndex(l.entries, l.entryIndex, id, e);
    InsertSound(l.entries, l.accounts, id, e, l'.accounts[e.account]);
    WriteAccountLimits(l.accounts, e.account, l'.accounts[e.account]);
  }

  /** Consuming by id: the integrity guard on the counter never fires, and the operation settles at most once. */
  lemma ConsumeKeeps(l: Ledger, id: Id, now: Time)
    requires LedgerInv(l)
    ensures LedgerInv(Consume(l, id, now).0)
    ensures Consume(l, id, now).1 != LedgerIntegrity
    ensures Consume(l, id, now).1.Settlement? <==> id in l.entries && l.entries[id].status != Released
  {
    hide IndexExact, CountersExact, WithinLimits, AdjustmentsChained, SnapshotOf, MarkConsumed;
    if id in l.entries && l.entries[id].status == Reserved {
      ReservedMeansCounted(l, id);
      MarkConsumedKeeps(l, id, now);
    }
  }

  lemma ReleaseKeeps(l: Ledger, id: Id, reason: ErrorCode, now: Time)
    requires LedgerInv(l)
    ensures LedgerInv(Release(l, id, reason, now).0)
    ensures Release(l, id, reason, now).1 != LedgerIntegrity
    ensures Release(l, id, reason, now).1.Settlement? <==> id in l.entries && l.entries[id].status != Consumed
  {
    hide IndexExact, CountersExact, WithinLimits, AdjustmentsChained, SnapshotOf, MarkReleased;
    if id in l.entries && l.entries[id].status == Reserved {
      ReservedMeansCounted(l, id);
      MarkReleasedKeeps(l, id, reason, now);
    }
  }

  // ---------------------------------------------------------------- reservations

  lemma ChargeCounters(l: Ledger, id: Id, e: Entry, a': Account, base: Option<int>)
    requires EntriesSound(l.entries, l.accounts) && CountersExact(l.entries, l.accounts)
    requires id !in l.entries && e.status == Reserved
    requires a'.reserved == AccountOrNew(l, e.account, base).reserved + 1
    requires a'.consumed == AccountOrNew(l, e.account, base).consumed
    ensures CountersExact(l.entries[id := e], l.accounts[e.account := a'])
  {
    CountsOrZero(l, e.account, base);
    var accounts' := l.accounts[e.account := a'];
    forall a | a in accounts'
      ensures accounts'[a].reserved == |EntriesOf(l.entries[id := e], a, Reserved)|
      ensures accounts'[a].consumed == |EntriesOf(l.entries[id := e], a, Consumed)|
    {
      EntriesOfInsert(l.entries, id, e, a, Reserved);
      EntriesOfInsert(l.entries, id, e, a, Consumed);
    }
  }

  lemma InsertIndex(entries: map<Id, Entry>, index: map<Key, Id>, id: Id, e: Entry)
    requires IndexExact(entries, index) && id !in entries && e.key !in index
    ensures IndexExact(entries[id := e], index[e.key := id])
  {
  }

  lemma InsertSound(entries: map<Id, Entry>, accounts: map<AccountKey, Account>, id: Id, e: Entry, a': Account)
    requires EntriesSound(entries, accounts) && EntryShape(e) && e.account.business == e.key.business
    ensures EntriesSound(entries[id := e], accounts[e.account := a'])
  {
  }

  lemma GrantKeeps(l: Ledger, id: Id, key: Key, account: AccountKey, base: Option<int>, now: Time)
    requires LedgerInv(l) && id !in l.entries && key !in l.entryIndex && account.business == key.business
    ensures LedgerInv(Grant(l, id, key, account, base, now).0)
  {
    var (l', r) := Grant(l, id, key, account, base, now);
    if r.Reservation? {
      var e := l'.entries[id];
      ChargeCounters(l, id, e, l'.accounts[account], base);
      InsertIndex(l.entries, l.entryIndex, id, e);
      InsertSound(l.entries, l.accounts, id, e, l'.accounts[account]);
      WriteAccountLimits(l.accounts, account, l'.accounts[account]);
    }
  }

  lemma ReserveKeeps(l: Ledger, id: Id, key: Key, access: Access, now: Time)
    requires LedgerInv(l) && id !in l.entries
    ensures LedgerInv(Reserve(l, id, key, access, now).0)
  {
    if key !in l.entryIndex && access.Granted? {
      GrantKeeps(l, id, key, access.AccountOf(key.business), access.base, now);
    }
  }

  // ---------------------------------------------------------------- adjustments

  lemma DeltaTotalAppend(adjustments: seq<Adjustment>, row: Adjustment, account: AccountKey)
    ensures DeltaTotal(adjustments + [row], account)
         == DeltaTotal(adjustments, account) + (if row.account == account then row.delta else 0)
  {
    assert (adjustments + [row])[..|adjustments|] == adjustments;
  }

  lemma ChainedAppend(adjustments: seq<Adjustment>, audits: seq<Audit>, row: Adjustment)
    requires AdjustmentsChained(adjustments, audits)
    requires ChainedAt(adjustments + [row], |adjustments|)
    requires forall i | 0 <= i < |adjustments| :: adjustments[i].key != row.key
    ensures AdjustmentsChained(adjustments + [row], audits + [AuditOf(row)])
  {
    var more := adjustments + [row];
    forall i | 0 <= i < |adjustments| ensures ChainedAt(more, i) {
      assert more[..i] == adjustments[..i];
      assert ChainedAt(adjustments, i);
    }
  }

  /** Writing one account row: a new row, or new counters and a new ceiling on an old one. */
  lemma WriteAccountSound(entries: map<Id, Entry>, accounts: map<AccountKey, Account>, account: AccountKey, a': Account)
    requires EntriesSound(entries, accounts)
    ensures EntriesSound(entries, accounts[account := a'])
  {
  }

  lemma WriteAccountLimits(accounts: map<AccountKey, Account>, account: AccountKey, a': Account)
    requires WithinLimits(accounts) && (a'.limit.Some? ==> a'.Used() <= a'.limit.value)
    ensures WithinLimits(accounts[account := a'])
  {
  }

  lemma WriteAccountCounters(l: Ledger, account: AccountKey, a': Account, base: Option<int>)
    requires EntriesSound(l.entries, l.accounts) && CountersExact(l.entries, l.accounts)
    requires a'.reserved == AccountOrNew(l, account, base).reserved
    requires a'.consumed == AccountOrNew(l, account, base).consumed
    ensures CountersExact(l.entries, l.accounts[account := a'])
  {
    CountsOrZero(l, account, base);
  }

  lemma AdjustAccountKeeps(l: Ledger, key: Key, account: AccountKey, base: int, delta: int, reason: AdjustmentReason)
    requires LedgerInv(l) && account.business == key.business && delta != 0 && -1000 <= delta <= 1000
    requires FindAdjustment(l.adjustments, key).None?
    ensures LedgerInv(AdjustAccount(l, key, account, base, delta, reason).0)
  {
    var (l', r) := AdjustAccount(l, key, account, base, delta, reason);
    if r.Adjusted? {
      CountsOrZero(l, account, Some(base));
      assert (l.adjustments + [r.adjustment])[..|l.adjustments|] == l.adjustments;
      ChainedAppend(l.adjustments, l.audits, r.adjustment);
      WriteAccountSound(l.entries, l.accounts, account, l'.accounts[account]);
      WriteAccountCounters(l, account, l'.accounts[account], Some(base));
      WriteAccountLimits(l.accounts, account, l'.accounts[account]);
    }
  }

  lemma AdjustKeeps(l: Ledger, actorValid: bool, businessKnown: bool, key: Key, delta: int, reason: AdjustmentReason, access: Access)
    requires LedgerInv(l)
    ensures LedgerInv(Adjust(l, actorValid, businessKnown, key, delta, reason, access).0)
  {
    if actorValid && businessKnown && delta != 0 && -1000 <= delta <= 1000
       && FindAdjustment(l.adjustments, key).None? && access.Granted? && access.base.Some? {
      AdjustAccountKeeps(l, key, access.AccountOf(key.business), access.base.value, delta, reason);
    }
  }
}
