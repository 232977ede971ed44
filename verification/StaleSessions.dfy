/** Whole runs in which every transaction decides on whatever image of the message its session holds. */
module StaleSessions {
  import opened CreditModel
  import opened CreditLedger
  import LedgerLemmas
  import opened Execution
  import opened RunTheorems
  import opened StaleClaims
  import StrandedCredits

  // ---------------------------------------------------------------- the transactions, on an image

  function MarkSeen(s: Store, message: Id, seen: Message, code: ErrorCode, now: Time): Store {
    if message !in s.messages || seen.status != Pending || seen.entry.Some? then s
    else s.(messages := s.messages[message := FailedRow(s.messages[message], code, now)])
  }

  /** The message is judged by its image; the entry and its account are read again under their locks. */
  function FailSeen(s: Store, message: Id, seen: Message, entry: Id, token: Id, code: ErrorCode, now: Time): Store {
    if message !in s.messages || seen.status != Pending || seen.token != Some(token) then s
    else if seen.entry != Some(entry) || !Locked(s.ledger, entry) then s
    else
      var failed := s.(messages := s.messages[message := FailedRow(s.messages[message], code, now)]);
      match s.ledger.entries[entry].status
      case Reserved =>
        if s.ledger.accounts[s.ledger.entries[entry].account].reserved < 1 then s
        else failed.(ledger := MarkReleased(s.ledger, entry, code, now))
      case Released => failed
      case Consumed => s
  }

  function CompleteSeen(s: Store, message: Id, seen: Message, entry: Id, token: Id, text: string, accepted: bool, now: Time): Store {
    if message !in s.messages || seen.conversation !in s.conversations then s
    else if seen.status != Pending || seen.token != Some(token) || seen.entry != Some(entry) then s
    else if !Locked(s.ledger, entry) || s.ledger.entries[entry].status != Reserved then s
    else if s.ledger.accounts[s.ledger.entries[entry].account].reserved < 1 then s
    else if !accepted || message in s.replyIndex then s
    else
      s.(ledger := MarkConsumed(s.ledger, entry, now),
         messages := s.messages[message := CompletedRow(s.messages[message], now)],
         replies := s.replies[s.nextId := Reply(seen.key.business, seen.conversation, message, entry, text, now)],
         replyIndex := s.replyIndex[message := s.nextId],
         nextId := s.nextId + 1)
  }

  /** With the committed row as the image these are the transactions of the protocol. */
  lemma SeenAreCurrent(s: Store, message: Id, entry: Id, token: Id, code: ErrorCode, text: string, accepted: bool, now: Time)
    requires message in s.messages
    ensures MarkSeen(s, message, s.messages[message], code, now) == MarkFailed(s, message, code, now)
    ensures FailSeen(s, message, s.messages[message], entry, token, code, now) == FailClaim(s, message, entry, token, code, now).0
    ensures CompleteSeen(s, message, s.messages[message], entry, token, text, accepted, now)
         == CompleteClaim(s, message, entry, token, text, accepted, now).0
  {
  }

  // ---------------------------------------------------------------- runs

  /** Any session may take any step at any time, with any image of the message's changing columns. */
  datatype Action =
    | Opening(conversation: Conversation)
    | Submitting(key: Key, conversationId: Id, author: Id, content: string)
    | Reserving(key: Key, access: Access, now: Time)
    | Claiming(message: Id, seen: Message, snapshot: Snapshot, now: Time, lease: int)
    | Marking(message: Id, seen: Message, code: ErrorCode, now: Time)
    | Releasing(entry: Id, code: ErrorCode, now: Time)
    | Failing(message: Id, seen: Message, entry: Id, token: Id, code: ErrorCode, now: Time)
    | Completing(message: Id, seen: Message, entry: Id, token: Id, text: string, accepted: bool, now: Time)
    | Adjusting(actorValid: bool, businessKnown: bool, key: Key, delta: int, reason: AdjustmentReason, access: Access)

  /** An image keeps the columns that never change. */
  predicate Image(s: Store, message: Id, seen: Message) {
    && message in s.messages
    && seen.key == s.messages[message].key && seen.conversation == s.messages[message].conversation
    && seen.author == s.messages[message].author && seen.content == s.messages[message].content
  }

  /** A request settles the entry that its own reservation returned. */
  predicate OwnEntry(s: Store, message: Id, entry: Id) {
    message in s.messages && entry in s.ledger.entries && s.ledger.entries[entry].key == s.messages[message].key
  }

  function Step(s: Store, a: Action): Store {
    match a
    case Opening(conversation) => OpenConversation(s, conversation)
    case Submitting(key, conversation, author, content) => Submit(s, key, conversation, author, content).0
    case Reserving(key, access, now) => ReserveCredit(s, key, access, now).0
    case Claiming(message, seen, snapshot, now, lease) =>
      if Image(s, message, seen) then ClaimSeen(s, message, seen, snapshot, now, lease).0 else s
    case Marking(message, seen, code, now) => if Image(s, message, seen) then MarkSeen(s, message, seen, code, now) else s
    case Releasing(entry, code, now) => ReleaseCredit(s, entry, code, now).0
    case Failing(message, seen, entry, token, code, now) =>
      if Image(s, message, seen) && OwnEntry(s, message, entry) then FailSeen(s, message, seen, entry, token, code, now) else s
    case Completing(message, seen, entry, token, text, accepted, now) =>
      if Image(s, message, seen) && OwnEntry(s, message, entry) then CompleteSeen(s, message, seen, entry, token, text, accepted, now)
      else s
    case Adjusting(actorValid, businessKnown, key, delta, reason, access) =>
      s.(ledger := Adjust(s.ledger, actorValid, businessKnown, key, delta, reason, access).0)
  }

  function Run(s: Store, actions: seq<Action>): Store {
    if actions == [] then s else Step(Run(s, actions[..|actions| - 1]), actions[|actions| - 1])
  }

  // ---------------------------------------------------------------- what survives

  /** The consumed entries are exactly those that a stored answer names, each by one answer of its tenant. */
  ghost predicate AnswersExact(entries: map<Id, Entry>, replies: map<Id, Reply>) {
    && (forall r | r in replies ::
          && replies[r].entry in entries && entries[replies[r].entry].status == Consumed
          && entries[replies[r].entry].key.business == replies[r].business)
    && (forall e | e in entries && entries[e].status == Consumed :: exists r :: r in replies && replies[r].entry == e)
    && (forall r, q | r in replies && q in replies && replies[r].entry == replies[q].entry :: r == q)
  }

  ghost predicate ChargeInv(s: Store) {
    && LedgerInv(s.ledger)
    && AnswersExact(s.ledger.entries, s.replies)
    && Issued(s.ledger.entries.Keys, s.nextId)
    && Issued(s.replies.Keys, s.nextId)
  }

  /** An entry that is not consumed moves among the other statuses, or appears. */
  lemma OtherStatus(entries: map<Id, Entry>, replies: map<Id, Reply>, i: Id, e: Entry)
    requires AnswersExact(entries, replies) && e.status != Consumed && (i in entries ==> entries[i].status != Consumed)
    ensures AnswersExact(entries[i := e], replies)
  {
  }

  lemma OneAnswerMore(entries: map<Id, Entry>, replies: map<Id, Reply>, i: Id, e: Entry, r: Id, reply: Reply)
    requires AnswersExact(entries, replies) && i in entries && entries[i].status != Consumed && r !in replies
    requires e.status == Consumed && reply.entry == i && reply.business == e.key.business
    ensures AnswersExact(entries[i := e], replies[r := reply])
  {
    var entries', replies' := entries[i := e], replies[r := reply];
    assert r in replies' && replies'[r].entry == i;
    forall f | f in entries' && entries'[f].status == Consumed ensures exists q :: q in replies' && replies'[q].entry == f {
      if f != i {
        var q :| q in replies && replies[q].entry == f;
        assert q in replies';
      }
    }
  }

  lemma SameAnswers(s: Store, s': Store)
    requires ChargeInv(s) && s'.ledger == s.ledger && s'.replies == s.replies && s.nextId <= s'.nextId
    ensures ChargeInv(s') && EntriesEvolve(s.ledger.entries, s'.ledger.entries)
  {
  }

  lemma ReserveCharges(s: Store, key: Key, access: Access, now: Time)
    requires ChargeInv(s)
    ensures var s' := ReserveCredit(s, key, access, now).0;
      ChargeInv(s') && EntriesEvolve(s.ledger.entries, s'.ledger.entries)
  {
    hide LedgerInv, AnswersExact, EffectiveLimit;
    LedgerLemmas.ReserveKeeps(s.ledger, s.nextId, key, access, now);
    var (s', r) := ReserveCredit(s, key, access, now);
    if r.Reservation? && !r.snapshot.replayed {
      OtherStatus(s.ledger.entries, s.replies, s.nextId, s'.ledger.entries[s.nextId]);
    }
  }

  /** A store whose ledger only gave one reserved credit back. */
  lemma GivenBackCharges(s: Store, s': Store, entry: Id, code: ErrorCode, now: Time)
    requires ChargeInv(s) && Locked(s.ledger, entry) && s.ledger.entries[entry].status == Reserved
    requires LedgerInv(MarkReleased(s.ledger, entry, code, now)) && s'.ledger == MarkReleased(s.ledger, entry, code, now)
    requires s'.replies == s.replies && s'.nextId == s.nextId
    ensures ChargeInv(s') && EntriesEvolve(s.ledger.entries, s'.ledger.entries)
  {
    hide LedgerInv, AnswersExact;
    OtherStatus(s.ledger.entries, s.replies, entry, s'.ledger.entries[entry]);
  }

  lemma ReleaseCharges(s: Store, entry: Id, code: ErrorCode, now: Time)
    requires ChargeInv(s)
    ensures var s' := ReleaseCredit(s, entry, code, now).0;
      ChargeInv(s') && EntriesEvolve(s.ledger.entries, s'.ledger.entries)
  {
    hide LedgerInv, AnswersExact, EntriesEvolve, MarkReleased;
    var s' := ReleaseCredit(s, entry, code, now).0;
    if s'.ledger != s.ledger {
      LedgerLemmas.MarkReleasedKeeps(s.ledger, entry, code, now);
      GivenBackCharges(s, s', entry, code, now);
    } else {
      SameAnswers(s, s');
    }
  }

  lemma FailCharges(s: Store, message: Id, seen: Message, entry: Id, token: Id, code: ErrorCode, now: Time)
    requires ChargeInv(s)
    ensures var s' := FailSeen(s, message, seen, entry, token, code, now);
      ChargeInv(s') && EntriesEvolve(s.ledger.entries, s'.ledger.entries)
  {
    hide LedgerInv, AnswersExact, EntriesEvolve, MarkReleased;
    var s' := FailSeen(s, message, seen, entry, token, code, now);
    if s'.ledger != s.ledger {
      LedgerLemmas.MarkReleasedKeeps(s.ledger, entry, code, now);
      GivenBackCharges(s, s', entry, code, now);
    } else {
      SameAnswers(s, s');
    }
  }

  lemma CompleteCharges(s: Store, message: Id, seen: Message, entry: Id, token: Id, text: string, accepted: bool, now: Time)
    requires ChargeInv(s) && Image(s, message, seen) && OwnEntry(s, message, entry)
    ensures var s' := CompleteSeen(s, message, seen, entry, token, text, accepted, now);
      ChargeInv(s') && EntriesEvolve(s.ledger.entries, s'.ledger.entries)
  {
    hide LedgerInv, AnswersExact;
    if Locked(s.ledger, entry) && s.ledger.entries[entry].status == Reserved {
      LedgerLemmas.MarkConsumedKeeps(s.ledger, entry, now);
      OneAnswerMore(s.ledger.entries, s.replies, entry, MarkConsumed(s.ledger, entry, now).entries[entry], s.nextId,
                    Reply(seen.key.business, seen.conversation, message, entry, text, now));
    }
  }

  lemma StepCharges(s: Store, a: Action)
    requires ChargeInv(s)
    ensures ChargeInv(Step(s, a)) && EntriesEvolve(s.ledger.entries, Step(s, a).ledger.entries)
  {
    hide ChargeInv, EntriesEvolve, ReserveCredit, ReleaseCredit, FailSeen, CompleteSeen, Adjust;
    SameAnswers(s, s);
    match a
    case Reserving(key, access, now) => ReserveCharges(s, key, access, now);
    case Releasing(entry, code, now) => ReleaseCharges(s, entry, code, now);
    case Failing(message, seen, entry, token, code, now) => FailCharges(s, message, seen, entry, token, code, now);
    case Completing(message, seen, entry, token, text, accepted, now) =>
      if Image(s, message, seen) && OwnEntry(s, message, entry) {
        CompleteCharges(s, message, seen, entry, token, text, accepted, now);
      }
    case Adjusting(actorValid, businessKnown, key, delta, reason, access) =>
      AdjustCharges(s, actorValid, businessKnown, key, delta, reason, access);
    case _ => SameAnswers(s, Step(s, a));
  }

  lemma AdjustCharges(s: Store, actorValid: bool, businessKnown: bool, key: Key, delta: int, reason: AdjustmentReason, access: Access)
    requires ChargeInv(s)
    ensures var s' := s.(ledger := Adjust(s.ledger, actorValid, businessKnown, key, delta, reason, access).0);
      ChargeInv(s') && EntriesEvolve(s.ledger.entries, s'.ledger.entries)
  {
    hide LedgerInv, AnswersExact, FindAdjustment, DeltaTotal;
    LedgerLemmas.AdjustKeeps(s.ledger, actorValid, businessKnown, key, delta, reason, access);
  }

  lemma {:induction false} RunCharges(actions: seq<Action>)
    ensures ChargeInv(Run(EMPTY_STORE, actions))
  {
    hide Step;
    if actions == [] {
      NothingCharged();
    } else {
      RunCharges(actions[..|actions| - 1]);
      hide ChargeInv;
      StepCharges(Run(EMPTY_STORE, actions[..|actions| - 1]), actions[|actions| - 1]);
    }
  }

  lemma NothingCharged()
    ensures ChargeInv(EMPTY_STORE)
  {
  }

  /**
    Whatever images the sessions hold: over every run counters are exact, no finite limit is exceeded, and a credit
    is consumed exactly when one answer names it, because the entry's status is read again before it is settled.
    */
  lemma {:induction false} ChargedOnceOnAnyImage(actions: seq<Action>)
    ensures var s := Run(EMPTY_STORE, actions);
      && CountersExact(s.ledger.entries, s.ledger.accounts) && WithinLimits(s.ledger.accounts)
      && AnswersExact(s.ledger.entries, s.replies)
  {
    RunCharges(actions);
    hide Run;
  }

  /** And a tenant's consumed counters still add up to its stored answers. */
  lemma {:induction false} BilledPerAnswerOnAnyImage(actions: seq<Action>, business: Id)
    ensures var s := Run(EMPTY_STORE, actions);
      ConsumedTotal(s.ledger.accounts, TenantAccounts(s, business)) == |TenantReplies(s, business)|
  {
    RunCharges(actions);
    var s := Run(EMPTY_STORE, actions);
    hide Run, ConsumedTotal;
    TotalIsCount(s.ledger, TenantAccounts(s, business));
    ImageOfReplies(s, business);
    ImageSize(TenantReplies(s, business), s.replies);
  }

  lemma ImageOfReplies(s: Store, business: Id)
    requires ChargeInv(s)
    ensures (set r | r in TenantReplies(s, business) :: s.replies[r].entry) == ConsumedIn(s.ledger.entries, TenantAccounts(s, business))
  {
    hide IndexExact, CountersExact, WithinLimits, AdjustmentsChained;
    forall e | e in ConsumedIn(s.ledger.entries, TenantAccounts(s, business))
      ensures e in set r | r in TenantReplies(s, business) :: s.replies[r].entry
    {
      var r :| r in s.replies && s.replies[r].entry == e;
      assert r in TenantReplies(s, business);
    }
  }

  // ---------------------------------------------------------------- what is lost

  /** A holder that was superseded still settles exactly when its own image hides that and the entry is still reserved. */
  lemma SupersededSettlesExactlyWhen(s: Store, message: Id, seen: Message, entry: Id, token: Id, text: string, now: Time)
    requires ChargeInv(s) && Image(s, message, seen) && OwnEntry(s, message, entry) && seen.conversation in s.conversations
    requires s.messages[message].token != Some(token) && message !in s.replyIndex
    ensures CompleteSeen(s, message, seen, entry, token, text, true, now) != s
       <==> seen.status == Pending && seen.token == Some(token) && seen.entry == Some(entry) && s.ledger.entries[entry].status == Reserved
  {
    if s.ledger.entries[entry].status == Reserved {
      LedgerLemmas.ReservedMeansCounted(s.ledger, entry);
    }
    EntryLocked(s, entry);
    hide ChargeInv;
  }

  lemma EntryLocked(s: Store, entry: Id)
    requires ChargeInv(s) && entry in s.ledger.entries
    ensures Locked(s.ledger, entry)
  {
  }

  /** The row of message 1 while the claim that drew this token holds entry 2 until the given time. */
  function HeldRow(key: Key, token: Id, until: Time): Message {
    FirstImage(key).(entry := Some(2), token := Some(token), leaseUntil := Some(until))
  }

  /** A first holder's lease ends, a second session takes over, and the first completes on the image of its own claim. */
  function LateRun(key: Key, snapshot: Snapshot, lease: Time): seq<Action> {
    [ Opening(Conversation(key.business, Chat, true)),
      Submitting(key, 0, 7, "q"),
      Reserving(key, StrandedCredits.OFFER, 0),
      Claiming(1, FirstImage(key), snapshot, 0, lease),
      Claiming(1, HeldRow(key, 3, lease), snapshot, lease, lease),
      Completing(1, HeldRow(key, 3, lease), 2, 3, "a", true, lease) ]
  }

  /** The second session holds the message under a live lease and the first still charges the credit and stores its answer. */
  ghost predicate FencingLost(s: Store, s': Store, key: Key, lease: Time) {
    && s.messages == map[1 := HeldRow(key, 4, lease + lease)] && LeaseActive(s.messages[1], lease)
    && 1 in s'.messages && s'.messages[1].status == Completed
    && 2 in s'.ledger.entries && s'.ledger.entries[2].status == Consumed
    && 1 in s'.replyIndex && s'.replyIndex[1] in s'.replies && s'.replies[s'.replyIndex[1]].content == "a"
  }

  lemma RunNext(s: Store, actions: seq<Action>, k: nat)
    requires k < |actions|
    ensures Run(s, actions[..k + 1]) == Step(Run(s, actions[..k]), actions[k])
  {
    hide Step;
    assert actions[..k + 1][..k] == actions[..k];
  }

  lemma SupersededAnswerIsKept(key: Key, snapshot: Snapshot, lease: Time)
    requires snapshot.entry == 2 && snapshot.status == Reserved && lease > 0
    ensures FencingLost(Run(EMPTY_STORE, LateRun(key, snapshot, lease)[..5]), Run(EMPTY_STORE, LateRun(key, snapshot, lease)), key, lease)
  {
    var actions := LateRun(key, snapshot, lease);
    assert actions[..6] == actions && Run(EMPTY_STORE, actions[..0]) == EMPTY_STORE;
    FiveSteps(actions);
    RunNext(EMPTY_STORE, actions, 5);
    var s2 := Step(Step(EMPTY_STORE, actions[0]), actions[1]);
    Asked(key);
    FirstCredit(s2, key);
    var s3 := Step(s2, actions[2]);
    TakenOver(s3, key, snapshot, lease);
    hide Run, Step;
  }

  lemma FiveSteps(actions: seq<Action>)
    requires |actions| > 5
    ensures Run(EMPTY_STORE, actions[..5])
         == Step(Step(Step(Step(Step(EMPTY_STORE, actions[0]), actions[1]), actions[2]), actions[3]), actions[4])
  {
    assert Run(EMPTY_STORE, actions[..0]) == EMPTY_STORE;
    hide Step, Run;
    RunNext(EMPTY_STORE, actions, 0);
    RunNext(EMPTY_STORE, actions, 1);
    RunNext(EMPTY_STORE, actions, 2);
    RunNext(EMPTY_STORE, actions, 3);
    RunNext(EMPTY_STORE, actions, 4);
  }

  predicate Prepared(s: Store, key: Key) {
    && s.conversations == map[0 := Conversation(key.business, Chat, true)]
    && s.messages == map[1 := FirstImage(key)] && s.replyIndex == map[]
  }

  lemma Asked(key: Key)
    ensures var s := Step(Step(EMPTY_STORE, Opening(Conversation(key.business, Chat, true))), Submitting(key, 0, 7, "q"));
      Prepared(s, key) && s.nextId == 2 && s.ledger == EMPTY_LEDGER
  {
    var s := Step(EMPTY_STORE, Opening(Conversation(key.business, Chat, true)));
    assert s.conversations == map[0 := Conversation(key.business, Chat, true)] && s.nextId == 1;
  }

  predicate Credited(l: Ledger, key: Key) {
    && Locked(l, 2) && l.entries[2].status == Reserved && l.entries[2].key == key
    && l.accounts[l.entries[2].account].reserved == 1
  }

  lemma FirstCredit(s: Store, key: Key)
    requires Prepared(s, key) && s.nextId == 2 && s.ledger == EMPTY_LEDGER
    ensures var s' := Step(s, Reserving(key, StrandedCredits.OFFER, 0));
      Prepared(s', key) && s'.nextId == 3 && Credited(s'.ledger, key)
  {
    hide EffectiveLimit, AccountOrNew;
    StrandedCredits.FirstLimit(StrandedCredits.OFFER.AccountOf(key.business));
    assert Reserve(EMPTY_LEDGER, 2, key, StrandedCredits.OFFER, 0)
        == Grant(EMPTY_LEDGER, 2, key, StrandedCredits.OFFER.AccountOf(key.business), Some(15), 0);
  }

  lemma TakenOver(s: Store, key: Key, snapshot: Snapshot, lease: Time)
    requires Prepared(s, key) && s.nextId == 3 && Credited(s.ledger, key)
    requires snapshot.entry == 2 && snapshot.status == Reserved && lease > 0
    ensures var s' := Step(Step(s, Claiming(1, FirstImage(key), snapshot, 0, lease)),
                           Claiming(1, HeldRow(key, 3, lease), snapshot, lease, lease));
      FencingLost(s', Step(s', Completing(1, HeldRow(key, 3, lease), 2, 3, "a", true, lease)), key, lease)
  {
    var s4 := Step(s, Claiming(1, FirstImage(key), snapshot, 0, lease));
    assert s4 == s.(messages := map[1 := HeldRow(key, 3, lease)], nextId := 4);
    var s5 := Step(s4, Claiming(1, HeldRow(key, 3, lease), snapshot, lease, lease));
    assert s5 == s.(messages := map[1 := HeldRow(key, 4, lease + lease)], nextId := 5);
  }
}
