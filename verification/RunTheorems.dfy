/** Whole-run properties of the credit ledger and the lease protocol. */
module RunTheorems {
  import opened CreditModel
  import opened CreditLedger
  import opened Execution
  import opened ExecutionLemmas
  import opened ExecutionRuns
  import opened RunLemmas

  // ---------------------------------------------------------------- charged exactly once

  /** A credit that paid for a stored answer. */
  ghost predicate Answers(s: Store, r: Id, e: Id) {
    && r in s.replies
    && s.replies[r].entry == e
    && s.replies[r].replyTo in s.messages
    && s.messages[s.replies[r].replyTo].status == Completed
    && s.messages[s.replies[r].replyTo].entry == Some(e)
  }

  lemma OneMessageAKey(s: Store)
    requires StoreInv(s)
    ensures forall i, j | i in s.messages && j in s.messages && s.messages[i].key == s.messages[j].key :: i == j
    ensures forall e, f | e in s.ledger.entries && f in s.ledger.entries && s.ledger.entries[e].key == s.ledger.entries[f].key :: e == f
  {
    hide MessagesSound, ConsumedHeld, ReleasedExplained, RepliesSound, IdsIssued, CountersExact, EntriesSound, WithinLimits, AdjustmentsChained;
  }

  lemma OneReplyAMessage(s: Store)
    requires StoreInv(s)
    ensures forall r, q | r in s.replies && q in s.replies && s.replies[r].replyTo == s.replies[q].replyTo :: r == q
    ensures forall r, q | r in s.replies && q in s.replies && s.replies[r].entry == s.replies[q].entry :: r == q
  {
    hide MessagesSound, MessageIndexExact, ConsumedHeld, ReleasedExplained, IdsIssued, LedgerInv;
    forall r, q | r in s.replies && q in s.replies && s.replies[r].entry == s.replies[q].entry
      ensures r == q
    {
      assert ReplySound(r, s.replies, s.replyIndex, s.messages);
      assert ReplySound(q, s.replies, s.replyIndex, s.messages);
      HolderUnique(s, s.replies[r].replyTo, s.replies[q].replyTo);
    }
  }

  lemma ReplyOfConsumed(s: Store, e: Id) returns (r: Id)
    requires StoreInv(s) && e in s.ledger.entries && s.ledger.entries[e].status == Consumed
    ensures Answers(s, r, e)
  {
    hide MessagesSound, MessageIndexExact, ReleasedExplained, IdsIssued, LedgerInv;
    var m := s.messageIndex[s.ledger.entries[e].key];
    SoundAt(s, m);
    r := s.replyIndex[m];
    assert ReplySound(r, s.replies, s.replyIndex, s.messages);
  }

  lemma ConsumedByReply(s: Store, r: Id)
    requires StoreInv(s) && r in s.replies
    ensures Answers(s, r, s.replies[r].entry)
    ensures s.replies[r].entry in s.ledger.entries && s.ledger.entries[s.replies[r].entry].status == Consumed
    ensures s.ledger.entries[s.replies[r].entry].key.business == s.replies[r].business
  {
    hide MessagesSound, MessageIndexExact, ReleasedExplained, IdsIssued, LedgerInv;
    assert ReplySound(r, s.replies, s.replyIndex, s.messages);
    SoundAt(s, s.replies[r].replyTo);
  }

  /** After every run: one message, one entry and one reply a key, and a credit is consumed exactly when it answers. */
  lemma {:induction false} ChargedExactlyOnce(timeout: int, actions: seq<Action>)
    ensures var s := Run(InitialWorld(timeout), actions).store;
      && (forall i, j | i in s.messages && j in s.messages && s.messages[i].key == s.messages[j].key :: i == j)
      && (forall e, f | e in s.ledger.entries && f in s.ledger.entries && s.ledger.entries[e].key == s.ledger.entries[f].key :: e == f)
      && (forall r, q | r in s.replies && q in s.replies && s.replies[r].replyTo == s.replies[q].replyTo :: r == q)
      && (forall e | e in s.ledger.entries :: s.ledger.entries[e].status == Consumed <==> exists r :: Answers(s, r, e))
  {
    hide WorldInv, StoreInv, Run, InitialWorld;
    Reachable(timeout, actions);
    var s := Run(InitialWorld(timeout), actions).store;
    StoreInvOf(Run(InitialWorld(timeout), actions));
    OneMessageAKey(s);
    OneReplyAMessage(s);
    forall e | e in s.ledger.entries
      ensures s.ledger.entries[e].status == Consumed <==> exists r :: Answers(s, r, e)
    {
      if s.ledger.entries[e].status == Consumed {
        var r := ReplyOfConsumed(s, e);
      }
      forall r | Answers(s, r, e) ensures s.ledger.entries[e].status == Consumed {
        ConsumedByReply(s, r);
      }
    }
  }

  // ---------------------------------------------------------------- a tenant's bill

  ghost function Pick(accounts: set<AccountKey>): (a: AccountKey)
    requires accounts != {}
    ensures a in accounts
  {
    var a :| a in accounts; a
  }

  ghost function ConsumedTotal(rows: map<AccountKey, Account>, accounts: set<AccountKey>): int
    requires accounts <= rows.Keys
  {
    if accounts == {} then 0
    else rows[Pick(accounts)].consumed + ConsumedTotal(rows, accounts - {Pick(accounts)})
  }

  ghost function ConsumedIn(entries: map<Id, Entry>, accounts: set<AccountKey>): set<Id> {
    set e | e in entries && entries[e].status == Consumed && entries[e].account in accounts
  }

  ghost function TenantAccounts(s: Store, business: Id): set<AccountKey> {
    set a | a in s.ledger.accounts && a.business == business
  }

  ghost function TenantReplies(s: Store, business: Id): set<Id> {
    set r | r in s.replies && s.replies[r].business == business
  }

  lemma {:induction false} TotalIsCount(l: Ledger, accounts: set<AccountKey>)
    requires CountersExact(l.entries, l.accounts) && accounts <= l.accounts.Keys
    ensures ConsumedTotal(l.accounts, accounts) == |ConsumedIn(l.entries, accounts)|
  {
    if accounts == {} {
      assert ConsumedIn(l.entries, accounts) == {};
    } else {
      var a := Pick(accounts);
      TotalIsCount(l, accounts - {a});
      var rest := ConsumedIn(l.entries, accounts - {a});
      var mine := EntriesOf(l.entries, a, Consumed);
      assert ConsumedIn(l.entries, accounts) == mine + rest;
      assert mine !! rest;
    }
  }

  lemma {:induction false} ImageSize(s: set<Id>, f: map<Id, Reply>)
    requires forall x | x in s :: x in f
    requires forall x, y | x in s && y in s && f[x].entry == f[y].entry :: x == y
    ensures |set x | x in s :: f[x].entry| == |s|
  {
    var images := set x | x in s :: f[x].entry;
    if s == {} {
      assert images == {};
    } else {
      var x :| x in s;
      ImageSize(s - {x}, f);
      assert images == (set y | y in s - {x} :: f[y].entry) + {f[x].entry};
    }
  }

  lemma RepliesMatchConsumed(s: Store, business: Id)
    requires StoreInv(s)
    ensures (set r | r in TenantReplies(s, business) :: s.replies[r].entry) == ConsumedIn(s.ledger.entries, TenantAccounts(s, business))
  {
    hide StoreInv, IndexExact, CountersExact, WithinLimits, AdjustmentsChained;
    var image := set r | r in TenantReplies(s, business) :: s.replies[r].entry;
    forall e | e in image ensures e in ConsumedIn(s.ledger.entries, TenantAccounts(s, business)) {
      var r :| r in TenantReplies(s, business) && s.replies[r].entry == e;
      ConsumedByReply(s, r);
      EntrySoundAt(s, e);
    }
    forall e | e in ConsumedIn(s.ledger.entries, TenantAccounts(s, business)) ensures e in image {
      var r := ReplyOfConsumed(s, e);
      ConsumedByReply(s, r);
      EntrySoundAt(s, e);
      assert r in TenantReplies(s, business);
    }
  }

  lemma EntrySoundAt(s: Store, e: Id)
    requires StoreInv(s) && e in s.ledger.entries
    ensures s.ledger.entries[e].account in s.ledger.accounts
    ensures s.ledger.entries[e].account.business == s.ledger.entries[e].key.business
    ensures EntryShape(s.ledger.entries[e])
  {
  }

  /** What a tenant's accounts say was consumed is the number of answers stored for that tenant. */
  lemma {:induction false} TenantBilledPerAnswer(timeout: int, actions: seq<Action>, business: Id)
    ensures var s := Run(InitialWorld(timeout), actions).store;
      ConsumedTotal(s.ledger.accounts, TenantAccounts(s, business)) == |TenantReplies(s, business)|
  {
    hide WorldInv, StoreInv, Run, InitialWorld, ConsumedTotal, ConsumedIn;
    Reachable(timeout, actions);
    var s := Run(InitialWorld(timeout), actions).store;
    StoreInvOf(Run(InitialWorld(timeout), actions));
    CountersOf(s);
    TotalIsCount(s.ledger, TenantAccounts(s, business));
    RepliesMatchConsumed(s, business);
    OneReplyAMessage(s);
    ImageSize(TenantReplies(s, business), s.replies);
  }

  lemma CountersOf(s: Store)
    requires StoreInv(s)
    ensures CountersExact(s.ledger.entries, s.ledger.accounts)
    ensures WithinLimits(s.ledger.accounts)
    ensures AdjustmentsChained(s.ledger.adjustments, s.ledger.audits)
  {
  }

  // ---------------------------------------------------------------- counters and ceilings

  /** Every account, at every moment of every run: exact counters, and no more used than a finite ceiling allows. */
  lemma {:induction false} NoOverspend(timeout: int, actions: seq<Action>, account: AccountKey)
    requires account in Run(InitialWorld(timeout), actions).store.ledger.accounts
    ensures var l := Run(InitialWorld(timeout), actions).store.ledger;
      && l.accounts[account].reserved == |EntriesOf(l.entries, account, Reserved)|
      && l.accounts[account].consumed == |EntriesOf(l.entries, account, Consumed)|
      && (l.accounts[account].limit.Some? ==> l.accounts[account].Used() <= l.accounts[account].limit.value)
  {
    hide WorldInv, StoreInv, Run, InitialWorld;
    Reachable(timeout, actions);
    StoreInvOf(Run(InitialWorld(timeout), actions));
    CountersOf(Run(InitialWorld(timeout), actions).store);
  }

  // ---------------------------------------------------------------- ledger status and message status

  /** A lease means a reserved credit; a failed message that holds a credit has given it back. */
  lemma {:induction false} StatusesAgree(timeout: int, actions: seq<Action>, m: Id)
    requires m in Run(InitialWorld(timeout), actions).store.messages
    ensures var s := Run(InitialWorld(timeout), actions).store;
      && RowShape(s.messages[m])
      && (s.messages[m].status == Pending && s.messages[m].token.Some? ==>
            s.messages[m].entry.Some? && Locked(s.ledger, s.messages[m].entry.value)
            && s.ledger.entries[s.messages[m].entry.value].status == Reserved)
      && (s.messages[m].status == Failed && s.messages[m].entry.Some? ==>
            Locked(s.ledger, s.messages[m].entry.value)
            && s.ledger.entries[s.messages[m].entry.value].status == Released)
  {
    hide WorldInv, StoreInv, Run, InitialWorld;
    Reachable(timeout, actions);
    var s := Run(InitialWorld(timeout), actions).store;
    StoreInvOf(Run(InitialWorld(timeout), actions));
    SoundAt(s, m);
    if s.messages[m].entry.Some? {
      EntrySoundAt(s, s.messages[m].entry.value);
    }
  }

  /** The row still carries this token. */
  predicate Current(s: Store, message: Id, token: Id) {
    message in s.messages && s.messages[message].status == Pending && s.messages[message].token == Some(token)
  }

  /** One reserved credit of one account is given back, with the message it was held for; nothing else changes. */
  ghost predicate Refunds(s: Store, s': Store, message: Id, entry: Id, code: ErrorCode, now: Time) {
    && Locked(s.ledger, entry) && message in s.messages && s.ledger.entries[entry].status == Reserved
    && var (row, held, account) := (s.messages[message], s.ledger.entries[entry], s.ledger.entries[entry].account);
    && var counters := s.ledger.accounts[account];
    && s'.ledger.entries == s.ledger.entries[entry :=
         Entry(held.key, account, Released, held.reservedAt, None, Some(now), Some(code))]
    && s'.ledger.accounts == s.ledger.accounts[account := Account(counters.limit, counters.reserved - 1, counters.consumed)]
    && s'.messages == s.messages[message :=
         Message(row.key, row.conversation, row.author, row.content, Failed, Some(entry), None, None, Some(now), Some(code))]
    && s'.replies == s.replies && s'.replyIndex == s.replyIndex && s'.messageIndex == s.messageIndex
  }

  /** One reserved credit of one account becomes consumed, and one answer is stored for its message; nothing else changes. */
  ghost predicate Charges(s: Store, s': Store, message: Id, entry: Id, reply: Id, text: string, now: Time) {
    && Locked(s.ledger, entry) && message in s.messages && s.ledger.entries[entry].status == Reserved
    && var (row, held, account) := (s.messages[message], s.ledger.entries[entry], s.ledger.entries[entry].account);
    && var counters := s.ledger.accounts[account];
    && s'.ledger.entries == s.ledger.entries[entry :=
         Entry(held.key, account, Consumed, held.reservedAt, Some(now), None, None)]
    && s'.ledger.accounts == s.ledger.accounts[account := Account(counters.limit, counters.reserved - 1, counters.consumed + 1)]
    && s'.messages == s.messages[message :=
         Message(row.key, row.conversation, row.author, row.content, Completed, Some(entry), None, None, Some(now), None)]
    && reply !in s.replies && message !in s.replyIndex
    && s'.replies == s.replies[reply := Reply(row.key.business, row.conversation, message, entry, text, now)]
    && s'.replyIndex == s.replyIndex[message := reply] && s'.messageIndex == s.messageIndex
  }

  /** The failure step of the client that holds the lease refunds one credit; any other failure step changes nothing. */
  lemma FailureRefundsOnce(w: World, c: Id, message: Id, entry: Id, token: Id, code: ErrorCode)
    requires WorldInv(w) && PhaseOf(w, c) == Failing(message, entry, token, code)
    ensures PhaseOf(Step(w, TakeFail(c)), c) == Done(Rejected(code))
    ensures if Current(w.store, message, token) then Refunds(w.store, Step(w, TakeFail(c)).store, message, entry, code, w.clock)
            else Step(w, TakeFail(c)).store == w.store
  {
    hide StoreInv, PhasesSound, TokensApart, CallsCurrent, LeasesRecorded, ClaimsSeparated;
    PhaseSoundAt(w, c);
    HolderEntry(w.store, message, entry);
  }

  lemma HolderEntry(s: Store, message: Id, entry: Id)
    requires StoreInv(s) && Paired(s, message, entry)
    ensures s.messages[message].status == Pending && s.messages[message].token.Some? ==>
      && s.messages[message].entry == Some(entry)
      && Locked(s.ledger, entry)
      && s.ledger.entries[entry].status == Reserved
      && s.ledger.accounts[s.ledger.entries[entry].account].reserved >= 1
      && s.messages[message].conversation in s.conversations
      && message !in s.replyIndex
  {
    hide StoreInv;
    if s.messages[message].status == Pending && s.messages[message].token.Some? {
      HolderFacts(s, message);
      EntryIndexedAt(s, entry);
      EntryIndexedAt(s, s.messages[message].entry.value);
    }
  }

  /** Completion by the lease holder charges its credit and stores the answer, unless the database rejects the rows. */
  lemma CompletionChargesOnce(w: World, c: Id, message: Id, entry: Id, token: Id, text: string, accepted: bool)
    requires WorldInv(w) && PhaseOf(w, c) == Completing(message, entry, token, text)
    ensures if Current(w.store, message, token) && accepted then
              && PhaseOf(Step(w, TakeComplete(c, accepted)), c).Done?
              && PhaseOf(Step(w, TakeComplete(c, accepted)), c).outcome.Answered?
              && Charges(w.store, Step(w, TakeComplete(c, accepted)).store, message, entry,
                         PhaseOf(Step(w, TakeComplete(c, accepted)), c).outcome.reply, text, w.clock)
            else Step(w, TakeComplete(c, accepted)).store == w.store
  {
    hide StoreInv, PhasesSound, TokensApart, CallsCurrent, LeasesRecorded, ClaimsSeparated;
    PhaseSoundAt(w, c);
    HolderEntry(w.store, message, entry);
    FreshReply(w.store);
  }

  lemma FreshReply(s: Store)
    requires StoreInv(s)
    ensures s.nextId !in s.replies
  {
  }

  // ---------------------------------------------------------------- fencing

  /** At most one client holds the current token of a message. */
  lemma {:induction false} OneHolder(timeout: int, actions: seq<Action>, c: Id, d: Id)
    requires var w := Run(InitialWorld(timeout), actions);
      && PhaseOf(w, c).HasToken() && PhaseOf(w, d).HasToken()
      && PhaseOf(w, c).message in w.store.messages
      && w.store.messages[PhaseOf(w, c).message].token == Some(PhaseOf(w, c).token)
      && PhaseOf(w, d).message == PhaseOf(w, c).message
      && w.store.messages[PhaseOf(w, d).message].token == Some(PhaseOf(w, d).token)
    ensures c == d
  {
    hide StoreInv, PhasesSound, CallsCurrent, LeasesRecorded, ClaimsSeparated, Run, InitialWorld;
    Reachable(timeout, actions);
  }

  /** The half-open time a call may take, as the request's own timeouts bound it. */
  predicate Timely(call: Call, timeout: int) {
    && call.started.Some?
    && call.started.value <= call.checkedAt + LeaseDuration(timeout) - timeout * SECOND
    && (call.ended.Some? ==> call.ended.value <= call.started.value + timeout * SECOND)
  }

  /** There are always at least thirty seconds between the request's start and the latest timely start of its call. */
  lemma LeaseSlack(timeout: int)
    ensures LeaseDuration(timeout) - timeout * SECOND >= 30 * SECOND
    ensures LeaseDuration(timeout) >= 90 * SECOND
  {
  }

  /** No request acts on a time later than the clock, and no call starts before its request did. */
  predicate PhaseTimed(p: Phase, clock: Time) {
    match p
    case Reserving(_, _, now) => now <= clock
    case Denying(_, _, now) => now <= clock
    case Claiming(_, _, now) => now <= clock
    case _ => true
  }

  predicate CallTimed(call: Call, clock: Time) {
    call.checkedAt <= clock && (call.started.Some? ==> call.checkedAt <= call.started.value)
  }

  ghost predicate WorldTimed(w: World) {
    && (forall c | c in w.clients :: PhaseTimed(w.clients[c], w.clock))
    && (forall t | t in w.calls :: CallTimed(w.calls[t], w.clock))
  }

  lemma StepTimed(w: World, a: Action)
    requires WorldTimed(w)
    ensures WorldTimed(Step(w, a))
  {
    hide Submit, ReserveCredit, MarkFailed, Claim, ReleaseCredit, FailClaim, CompleteClaim, Adjust, OpenConversation, LeaseDuration;
  }

  lemma {:induction false} RunTimed(timeout: int, actions: seq<Action>)
    ensures WorldTimed(Run(InitialWorld(timeout), actions))
  {
    hide Step, WorldTimed;
    if actions == [] {
      assert WorldTimed(InitialWorld(timeout)) by { InitialTimed(timeout); }
    } else {
      RunTimed(timeout, actions[..|actions| - 1]);
      StepTimed(Run(InitialWorld(timeout), actions[..|actions| - 1]), actions[|actions| - 1]);
    }
  }

  lemma InitialTimed(timeout: int)
    ensures WorldTimed(InitialWorld(timeout))
  {
  }

  /** Two timely provider calls for one message never overlap. */
  lemma {:induction false} CallsNeverOverlap(timeout: int, actions: seq<Action>, t: Id, u: Id)
    requires var calls := Run(InitialWorld(timeout), actions).calls;
      && t in calls && u in calls && t < u && calls[t].message == calls[u].message
      && Timely(calls[t], timeout) && Timely(calls[u], timeout)
    ensures var calls := Run(InitialWorld(timeout), actions).calls;
      && calls[t].started.value + timeout * SECOND <= calls[u].started.value
      && (calls[t].ended.Some? ==> calls[t].ended.value <= calls[u].started.value)
  {
    hide StoreInv, PhasesSound, CallsCurrent, LeasesRecorded, TokensApart, Run, LeaseDuration, Step;
    Reachable(timeout, actions);
    RunTimed(timeout, actions);
    TimeoutFixed(timeout, actions);
  }

  lemma {:induction false} TimeoutFixed(timeout: int, actions: seq<Action>)
    ensures Run(InitialWorld(timeout), actions).timeout == timeout
  {
    if actions == [] {
    } else {
      TimeoutFixed(timeout, actions[..|actions| - 1]);
      StepTimeout(Run(InitialWorld(timeout), actions[..|actions| - 1]), actions[|actions| - 1]);
    }
  }

  lemma StepTimeout(w: World, a: Action)
    ensures Step(w, a).timeout == w.timeout
  {
  }
}
