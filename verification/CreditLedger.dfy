/** The credit ledger: reservations, settlements and administrative adjustments. */
module CreditLedger {
  import opened CreditModel

  datatype Ledger = Ledger(
    accounts: map<AccountKey, Account>,
    entries: map<Id, Entry>,
    entryIndex: map<Key, Id>,
    adjustments: seq<Adjustment>,
    audits: seq<Audit>)

  /** The audit row written beside an adjustment. */
  datatype Audit = Audit(target: AccountKey, delta: int, before: int, after: int)

  const EMPTY_LEDGER := Ledger(map[], map[], map[], [], [])

  datatype Snapshot = Snapshot(
    entry: Id,
    account: AccountKey,
    status: EntryStatus,
    limit: Option<int>,
    reserved: int,
    consumed: int,
    remaining: Option<int>,
    replayed: bool)

  datatype Refusal = NeedsSubscription | NotActive | NotEntitled | LimitReached | CreditIntegrity

  datatype ReserveResult = Reservation(snapshot: Snapshot) | Refused(refusal: Refusal)

  datatype SettleResult = Settlement(snapshot: Snapshot) | ReservationNotFound | StateConflict | LedgerIntegrity

  datatype AdjustRefusal =
    | ActorForbidden
    | BusinessNotFound
    | IdempotencyConflict
    | SubscriptionUnavailable
    | EntitlementUnavailable
    | UnlimitedEntitlement
    | AdjustmentConflict
    | RowRejected

  datatype AdjustResult =
    | Adjusted(adjustment: Adjustment, remainingAfter: int, replayed: bool)
    | AdjustRefused(refusal: AdjustRefusal)

  // ---------------------------------------------------------------- operations

  function SnapshotOf(id: Id, e: Entry, a: Account, replayed: bool): Snapshot {
    Snapshot(id, e.account, e.status, a.limit, a.reserved, a.consumed,
             if a.limit.None? then None else Some(a.limit.value - a.Used()), replayed)
  }

  /** The row locks taken on an entry and its account; None when either row is missing. */
  predicate Locked(l: Ledger, id: Id) {
    id in l.entries && l.entries[id].account in l.accounts
  }

  /** The sum of the deltas recorded for one account. */
  function DeltaTotal(adjustments: seq<Adjustment>, account: AccountKey): int {
    if adjustments == [] then 0
    else
      var last := adjustments[|adjustments| - 1];
      DeltaTotal(adjustments[..|adjustments| - 1], account) + (if last.account == account then last.delta else 0)
  }

  function EffectiveLimit(adjustments: seq<Adjustment>, account: AccountKey, base: Option<int>): Option<int> {
    if base.None? then None else Some(base.value + DeltaTotal(adjustments, account))
  }

  /** The CHECK constraints a freshly inserted account row has to satisfy. */
  predicate InsertableAccount(account: AccountKey, base: Option<int>) {
    account.periodStart < account.periodEnd && (base.Some? ==> base.value >= 0)
  }

  function AccountOrNew(l: Ledger, account: AccountKey, base: Option<int>): Account {
    if account in l.accounts then l.accounts[account] else Account(base, 0, 0)
  }

  function Replay(l: Ledger, id: Id): ReserveResult {
    if Locked(l, id) then Reservation(SnapshotOf(id, l.entries[id], l.accounts[l.entries[id].account], true))
    else Refused(CreditIntegrity)
  }

  function Grant(l: Ledger, id: Id, key: Key, account: AccountKey, base: Option<int>, now: Time): (Ledger, ReserveResult) {
    if account !in l.accounts && !InsertableAccount(account, base) then (l, Refused(CreditIntegrity))
    else
      var current := AccountOrNew(l, account, base);
      var limit := EffectiveLimit(l.adjustments, account, base);
      if limit.Some? && limit.value < 0 then (l, Refused(CreditIntegrity))
      else if limit.Some? && current.Used() >= limit.value then (l, Refused(LimitReached))
      else
        var charged := current.(limit := limit, reserved := current.reserved + 1);
        var entry := Entry(key, account, Reserved, now, None, None, None);
        (l.(accounts := l.accounts[account := charged],
            entries := l.entries[id := entry],
            entryIndex := l.entryIndex[key := id]),
         Reservation(SnapshotOf(id, entry, charged, false)))
  }

  /** `id` is the primary key drawn for a new entry. */
  function Reserve(l: Ledger, id: Id, key: Key, access: Access, now: Time): (Ledger, ReserveResult) {
    if key in l.entryIndex then (l, Replay(l, l.entryIndex[key]))
    else
      match access
      case NoSubscription => (l, Refused(NeedsSubscription))
      case Inactive => (l, Refused(NotActive))
      case NoPeriod => (l, Refused(CreditIntegrity))
      case Denied => (l, Refused(NotEntitled))
      case Granted(_, _, _, base) => Grant(l, id, key, access.AccountOf(key.business), base, now)
  }

  function MarkConsumed(l: Ledger, id: Id, now: Time): Ledger
    requires Locked(l, id)
  {
    var e := l.entries[id];
    var a := l.accounts[e.account];
    l.(accounts := l.accounts[e.account := a.(reserved := a.reserved - 1, consumed := a.consumed + 1)],
       entries := l.entries[id := e.(status := Consumed, consumedAt := Some(now), releasedAt := None, reason := None)])
  }

  function MarkReleased(l: Ledger, id: Id, reason: ErrorCode, now: Time): Ledger
    requires Locked(l, id)
  {
    var e := l.entries[id];
    var a := l.accounts[e.account];
    l.(accounts := l.accounts[e.account := a.(reserved := a.reserved - 1)],
       entries := l.entries[id := e.(status := Released, consumedAt := None, releasedAt := Some(now), reason := Some(reason))])
  }

  function Settled(l: Ledger, id: Id, replayed: bool): SettleResult
    requires Locked(l, id)
  {
    Settlement(SnapshotOf(id, l.entries[id], l.accounts[l.entries[id].account], replayed))
  }

  function Consume(l: Ledger, id: Id, now: Time): (Ledger, SettleResult) {
    if id !in l.entries then (l, ReservationNotFound)
    else if !Locked(l, id) then (l, LedgerIntegrity)
    else if l.entries[id].status == Consumed then (l, Settled(l, id, true))
    else if l.entries[id].status == Released then (l, StateConflict)
    else if l.accounts[l.entries[id].account].reserved < 1 then (l, LedgerIntegrity)
    else
      var l' := MarkConsumed(l, id, now);
      (l', Settled(l', id, false))
  }

  function Release(l: Ledger, id: Id, reason: ErrorCode, now: Time): (Ledger, SettleResult) {
    if id !in l.entries then (l, ReservationNotFound)
    else if !Locked(l, id) then (l, LedgerIntegrity)
    else if l.entries[id].status == Released then (l, Settled(l, id, true))
    else if l.entries[id].status == Consumed then (l, StateConflict)
    else if l.accounts[l.entries[id].account].reserved < 1 then (l, LedgerIntegrity)
    else
      var l' := MarkReleased(l, id, reason, now);
      (l', Settled(l', id, false))
  }

  function FindAdjustment(adjustments: seq<Adjustment>, key: Key): (r: Option<Adjustment>)
    ensures r.None? ==> forall i | 0 <= i < |adjustments| :: adjustments[i].key != key
    ensures r.Some? ==> r.value in adjustments && r.value.key == key
  {
    if adjustments == [] then None
    else if adjustments[|adjustments| - 1].key == key then Some(adjustments[|adjustments| - 1])
    else FindAdjustment(adjustments[..|adjustments| - 1], key)
  }

  function AuditOf(a: Adjustment): Audit {
    Audit(a.account, a.delta, a.before, a.after)
  }

  function AdjustAccount(l: Ledger, key: Key, account: AccountKey, base: int, delta: int, reason: AdjustmentReason)
    : (Ledger, AdjustResult)
  {
    if account !in l.accounts && !InsertableAccount(account, Some(base)) then (l, AdjustRefused(RowRejected))
    else
      var current := AccountOrNew(l, account, Some(base));
      var before := base + DeltaTotal(l.adjustments, account);
      var after := before + delta;
      if before < current.Used() then (l, AdjustRefused(AdjustmentConflict))
      else if after < current.Used() || after < 0 then (l, AdjustRefused(AdjustmentConflict))
      else if base < 0 then (l, AdjustRefused(RowRejected))
      else
        var row := Adjustment(key, account, delta, reason, base, before, after, current.reserved, current.consumed);
        (l.(accounts := l.accounts[account := current.(limit := Some(after))],
            adjustments := l.adjustments + [row],
            audits := l.audits + [AuditOf(row)]),
         Adjusted(row, after - current.Used(), false))
  }

  function Adjust(l: Ledger, actorValid: bool, businessKnown: bool, key: Key, delta: int, reason: AdjustmentReason, access: Access)
    : (Ledger, AdjustResult)
  {
    if !actorValid then (l, AdjustRefused(ActorForbidden))
    else if delta == 0 || delta < -1000 || delta > 1000 then (l, AdjustRefused(AdjustmentConflict))
    else if !businessKnown then (l, AdjustRefused(BusinessNotFound))
    else
      var existing := FindAdjustment(l.adjustments, key);
      if existing.Some? then
        var row := existing.value;
        if row.delta != delta || row.reason != reason then (l, AdjustRefused(IdempotencyConflict))
        else (l, Adjusted(row, row.after - row.reserved - row.consumed, true))
      else
        match access
        case NoSubscription => (l, AdjustRefused(SubscriptionUnavailable))
        case Inactive => (l, AdjustRefused(SubscriptionUnavailable))
        case NoPeriod => (l, AdjustRefused(SubscriptionUnavailable))
        case Denied => (l, AdjustRefused(EntitlementUnavailable))
        case Granted(_, _, _, base) =>
          if base.None? then (l, AdjustRefused(UnlimitedEntitlement))
          else AdjustAccount(l, key, access.AccountOf(key.business), base.value, delta, reason)
  }

  datatype UsageResult = UsageFails | UsageLeft(remaining: Option<int>)

  /** `remaining` as the usage page recomputes it, for an account that exists or not; a negative limit is an error. */
  function UsageRemaining(l: Ledger, account: AccountKey, base: Option<int>): UsageResult {
    var used := if account in l.accounts then l.accounts[account].Used() else 0;
    var limit := if account in l.accounts then EffectiveLimit(l.adjustments, account, base) else base;
    if limit.None? then UsageLeft(None)
    else if account in l.accounts && limit.value < 0 then UsageFails
    else UsageLeft(Some(if limit.value - used > 0 then limit.value - used else 0))
  }

  // ---------------------------------------------------------------- invariant

  /** The NULL / NOT NULL shape the entry table's status CHECK demands. */
  predicate EntryShape(e: Entry) {
    match e.status
    case Reserved => e.consumedAt.None? && e.releasedAt.None? && e.reason.None?
    case Consumed => e.consumedAt.Some? && e.releasedAt.None? && e.reason.None?
    case Released => e.consumedAt.None? && e.releasedAt.Some? && e.reason.Some?
  }

  /** The unique constraint on (business, digest), as an index that is exact in both directions. */
  ghost predicate IndexExact(entries: map<Id, Entry>, index: map<Key, Id>) {
    && (forall k | k in index :: index[k] in entries && entries[index[k]].key == k)
    && (forall i | i in entries :: entries[i].key in index && index[entries[i].key] == i)
  }

  ghost predicate EntriesSound(entries: map<Id, Entry>, accounts: map<AccountKey, Account>) {
    forall i | i in entries ::
      && EntryShape(entries[i])
      && entries[i].account in accounts
      && entries[i].account.business == entries[i].key.business
  }

  ghost function EntriesOf(entries: map<Id, Entry>, account: AccountKey, status: EntryStatus): set<Id> {
    set i | i in entries && entries[i].account == account && entries[i].status == status
  }

  ghost predicate CountersExact(entries: map<Id, Entry>, accounts: map<AccountKey, Account>) {
    forall a | a in accounts ::
      && accounts[a].reserved == |EntriesOf(entries, a, Reserved)|
      && accounts[a].consumed == |EntriesOf(entries, a, Consumed)|
  }

  ghost predicate WithinLimits(accounts: map<AccountKey, Account>) {
    forall a | a in accounts :: accounts[a].limit.Some? ==> accounts[a].Used() <= accounts[a].limit.value
  }

  /** Row `i` of the adjustment ledger against the rows before it. */
  ghost predicate ChainedAt(adjustments: seq<Adjustment>, i: nat)
    requires i < |adjustments|
  {
    var row := adjustments[i];
    && row.before == row.base + DeltaTotal(adjustments[..i], row.account)
    && row.after == row.before + row.delta
    && row.delta != 0 && -1000 <= row.delta <= 1000
    && 0 <= row.base && 0 <= row.reserved && 0 <= row.consumed
    && row.reserved + row.consumed <= row.before
    && row.reserved + row.consumed <= row.after
    && row.account.business == row.key.business
  }

  ghost predicate AdjustmentsChained(adjustments: seq<Adjustment>, audits: seq<Audit>) {
    && (forall i | 0 <= i < |adjustments| :: ChainedAt(adjustments, i))
    && (forall i, j | 0 <= i < j < |adjustments| :: adjustments[i].key != adjustments[j].key)
    && |audits| == |adjustments|
    && (forall i | 0 <= i < |audits| :: audits[i] == AuditOf(adjustments[i]))
  }

  ghost predicate LedgerInv(l: Ledger) {
    && IndexExact(l.entries, l.entryIndex)
    && EntriesSound(l.entries, l.accounts)
    && CountersExact(l.entries, l.accounts)
    && WithinLimits(l.accounts)
    && AdjustmentsChained(l.adjustments, l.audits)
  }
}
