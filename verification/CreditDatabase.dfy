/** The tables as mutable state: one method a transaction, and the request that strings them together. */
module CreditDatabase {
  import opened CreditModel
  import opened CreditLedger
  import opened Execution
  import opened ExecutionLemmas
  import opened ExecutionRuns
  import LedgerLemmas
  import opened Recoverability
  import opened RunLemmas
  import Answers

  class Database {
    var accounts: map<AccountKey, Account>
    var entries: map<Id, Entry>
    var entryIndex: map<Key, Id>
    var adjustments: seq<Adjustment>
    var audits: seq<Audit>
    var conversations: map<Id, Conversation>
    var messages: map<Id, Message>
    var messageIndex: map<Key, Id>
    var replies: map<Id, Reply>
    var replyIndex: map<Id, Id>
    var nextId: Id

    ghost function LedgerState(): Ledger
      reads this
    {
      Ledger(accounts, entries, entryIndex, adjustments, audits)
    }

    ghost function State(): Store
      reads this
    {
      Store(LedgerState(), conversations, messages, messageIndex, replies, replyIndex, nextId)
    }

    ghost predicate Valid()
      reads this
    {
      StoreInv(State())
    }

    constructor ()
      ensures State() == EMPTY_STORE && Valid()
    {
      accounts, entries, entryIndex, adjustments, audits := map[], map[], map[], [], [];
      conversations, messages, messageIndex, replies, replyIndex, nextId := map[], map[], map[], map[], map[], 0;
    }

    method NewId() returns (id: Id)
      modifies this`nextId
      ensures id == old(nextId) && nextId == old(nextId) + 1
    {
      id := nextId;
      nextId := nextId + 1;
    }

    // -------------------------------------------------------------- credits

    method ReserveCredit(key: Key, access: Access, now: Time) returns (r: ReserveResult)
      modifies this
      ensures (State(), r) == Execution.ReserveCredit(old(State()), key, access, now)
      ensures old(Valid()) ==> Valid()
    {
      hide StoreInv, Grant;
      ghost var s := State();
      ReserveKeepsValid(s, key, access, now);
      if key in entryIndex {
        var id := entryIndex[key];
        if id in entries && entries[id].account in accounts {
          return Reservation(SnapshotOf(id, entries[id], accounts[entries[id].account], true));
        }
        return Refused(CreditIntegrity);
      }
      match access
      case NoSubscription => return Refused(NeedsSubscription);
      case Inactive => return Refused(NotActive);
      case NoPeriod => return Refused(CreditIntegrity);
      case Denied => return Refused(NotEntitled);
      case Granted(_, _, _, base) =>
        r := GrantCredit(key, access.AccountOf(key.business), base, now);
    }

    /** The part of a reservation that follows the entitlement check. */
    method GrantCredit(key: Key, accountKey: AccountKey, base: Option<int>, now: Time) returns (r: ReserveResult)
      modifies this`accounts, this`entries, this`entryIndex, this`nextId
      ensures (LedgerState(), r) == Grant(old(LedgerState()), old(nextId), key, accountKey, base, now)
      ensures nextId == old(nextId) + (if r.Reservation? then 1 else 0)
      ensures if r.Reservation? then !r.snapshot.replayed else LedgerState() == old(LedgerState())
    {
      hide DeltaTotal;
      var account := Account(base, 0, 0);
      if accountKey in accounts {
        account := accounts[accountKey];
      } else if !InsertableAccount(accountKey, base) {
        return Refused(CreditIntegrity);
      }
      var used := account.reserved + account.consumed;
      var limit := EffectiveLimit(adjustments, accountKey, base);
      if limit.Some? && limit.value < 0 {
        return Refused(CreditIntegrity);
      }
      if limit.Some? && used >= limit.value {
        return Refused(LimitReached);
      }
      if account.limit != limit {
        account := account.(limit := limit);
      }
      account := account.(reserved := account.reserved + 1);
      accounts := accounts[accountKey := account];
      var id := NewId();
      var entry := Entry(key, accountKey, Reserved, now, None, None, None);
      entries := entries[id := entry];
      entryIndex := entryIndex[key := id];
      r := Reservation(SnapshotOf(id, entry, account, false));
    }

    method Consume(id: Id, now: Time) returns (r: SettleResult)
      modifies this`accounts, this`entries
      ensures (LedgerState(), r) == CreditLedger.Consume(old(LedgerState()), id, now)
      ensures LedgerInv(old(LedgerState())) ==> LedgerInv(LedgerState())
    {
      hide LedgerInv;
      ConsumeKeepsValid(LedgerState(), id, now);
      if id !in entries { return ReservationNotFound; }
      var entry := entries[id];
      if entry.account !in accounts { return LedgerIntegrity; }
      var account := accounts[entry.account];
      if entry.status == Consumed { return Settlement(SnapshotOf(id, entry, account, true)); }
      if entry.status == Released { return StateConflict; }
      if account.reserved < 1 { return LedgerIntegrity; }
      account := account.(reserved := account.reserved - 1);
      account := account.(consumed := account.consumed + 1);
      entry := entry.(status := Consumed, consumedAt := Some(now), releasedAt := None, reason := None);
      accounts := accounts[entry.account := account];
      entries := entries[id := entry];
      r := Settlement(SnapshotOf(id, entry, account, false));
    }

    method Release(id: Id, reason: ErrorCode, now: Time) returns (r: SettleResult)
      modifies this`accounts, this`entries
      ensures (LedgerState(), r) == CreditLedger.Release(old(LedgerState()), id, reason, now)
      ensures LedgerInv(old(LedgerState())) ==> LedgerInv(LedgerState())
    {
      hide LedgerInv;
      ReleaseKeepsValid(LedgerState(), id, reason, now);
      if id !in entries { return ReservationNotFound; }
      var entry := entries[id];
      if entry.account !in accounts { return LedgerIntegrity; }
      var account := accounts[entry.account];
      if entry.status == Released { return Settlement(SnapshotOf(id, entry, account, true)); }
      if entry.status == Consumed { return StateConflict; }
      if account.reserved < 1 { return LedgerIntegrity; }
      account := account.(reserved := account.reserved - 1);
      entry := entry.(status := Released, consumedAt := None, releasedAt := Some(now), reason := Some(reason));
      accounts := accounts[entry.account := account];
      entries := entries[id := entry];
      r := Settlement(SnapshotOf(id, entry, account, false));
    }

    method Adjust(actorValid: bool, businessKnown: bool, key: Key, delta: int, reason: AdjustmentReason, access: Access)
      returns (r: AdjustResult)
      modifies this`accounts, this`adjustments, this`audits
      ensures (LedgerState(), r) == CreditLedger.Adjust(old(LedgerState()), actorValid, businessKnown, key, delta, reason, access)
      ensures old(Valid()) ==> Valid()
    {
      hide StoreInv, DeltaTotal;
      ghost var s := State();
      AdjustKeepsValid(s, actorValid, businessKnown, key, delta, reason, access);
      if !actorValid { return AdjustRefused(ActorForbidden); }
      if delta == 0 || delta < -1000 || delta > 1000 { return AdjustRefused(AdjustmentConflict); }
      if !businessKnown { return AdjustRefused(BusinessNotFound); }
      var existing := FindAdjustment(adjustments, key);
      if existing.Some? {
        var row := existing.value;
        if row.delta != delta || row.reason != reason { return AdjustRefused(IdempotencyConflict); }
        return Adjusted(row, row.after - row.reserved - row.consumed, true);
      }
      if access.NoSubscription? || access.Inactive? || access.NoPeriod? { return AdjustRefused(SubscriptionUnavailable); }
      if access.Denied? { return AdjustRefused(EntitlementUnavailable); }
      if access.base.None? { return AdjustRefused(UnlimitedEntitlement); }
      var base := access.base.value;
      var key' := access.AccountOf(key.business);
      var account := Account(Some(base), 0, 0);
      if key' in accounts {
        account := accounts[key'];
      } else if !InsertableAccount(key', Some(base)) {
        return AdjustRefused(RowRejected);
      }
      var before := base + DeltaTotal(adjustments, key');
      var used := account.reserved + account.consumed;
      if before < used { return AdjustRefused(AdjustmentConflict); }
      var after := before + delta;
      if after < used || after < 0 { return AdjustRefused(AdjustmentConflict); }
      if base < 0 { return AdjustRefused(RowRejected); }
      account := account.(limit := Some(after));
      accounts := accounts[key' := account];
      var row := Adjustment(key, key', delta, reason, base, before, after, account.reserved, account.consumed);
      adjustments := adjustments + [row];
      audits := audits + [AuditOf(row)];
      r := Adjusted(row, after - used, false);
    }

    // -------------------------------------------------------------- messages

    method Submit(key: Key, conversation: Id, author: Id, content: string) returns (r: SubmitResult)
      modifies this`messages, this`messageIndex, this`nextId
      ensures (State(), r) == Execution.Submit(old(State()), key, conversation, author, content)
      ensures old(Valid()) ==> Valid()
    {
      hide StoreInv;
      ghost var s := State();
      SubmitKeepsValid(s, key, conversation, author, content);
      if key in messageIndex && messageIndex[key] in messages {
        var existing := messages[messageIndex[key]];
        if existing.conversation != conversation || existing.author != author || existing.content != content {
          return ReplayConflict;
        }
        return Submitted(messageIndex[key], true);
      }
      if conversation !in conversations || conversations[conversation].business != key.business {
        return ConversationNotFound;
      }
      var id := NewId();
      messages := messages[id := Message(key, conversation, author, content, Pending, None, None, None, None, None)];
      messageIndex := messageIndex[key := id];
      r := Submitted(id, false);
    }

    method Claim(message: Id, snapshot: Snapshot, now: Time, lease: int) returns (r: ClaimResult)
      modifies this`messages, this`nextId
      ensures (State(), r) == Execution.Claim(old(State()), message, snapshot, now, lease)
      ensures old(Valid() && Paired(State(), message, snapshot.entry) && entries[snapshot.entry].status == Reserved) ==> Valid()
    {
      hide StoreInv;
      ClaimKeepsValid(State(), message, snapshot, now, lease);
      if message !in messages || messages[message].conversation !in conversations { return ClaimIntegrity; }
      var row := messages[message];
      if !conversations[row.conversation].grounded { return ClaimIntegrity; }
      if row.status == Completed {
        if message !in replyIndex { return ClaimIntegrity; }
        if snapshot.entry !in entries || entries[snapshot.entry].account !in accounts { return ClaimEscaped; }
        return ClaimCompleted(replyIndex[message]);
      }
      if row.status == Failed {
        if row.error.None? { return ClaimIntegrity; }
        return ClaimFailed(row.error.value);
      }
      if snapshot.status != Reserved { return ClaimIntegrity; }
      if row.entry.Some? && row.entry.value != snapshot.entry { return ClaimIntegrity; }
      if row.token.Some? && row.leaseUntil.Some? && row.leaseUntil.value > now { return ClaimInProgress; }
      var token := NewId();
      row := row.(entry := Some(snapshot.entry));
      row := row.(token := Some(token), leaseUntil := Some(now + lease));
      messages := messages[message := row];
      r := Claimed(token);
    }

    method MarkPreReservationFailure(message: Id, code: ErrorCode, now: Time)
      modifies this`messages
      ensures State() == Execution.MarkFailed(old(State()), message, code, now)
      ensures old(Valid()) ==> Valid()
    {
      hide StoreInv;
      MarkKeepsValid(State(), message, code, now);
      if message !in messages { return; }
      var row := messages[message];
      if row.status != Pending { return; }
      if row.entry.Some? { return; }
      row := row.(status := Failed, completedAt := Some(now), error := Some(code));
      row := row.(token := None, leaseUntil := None);
      messages := messages[message := row];
    }

    method FailClaim(message: Id, entry: Id, token: Id, code: ErrorCode, now: Time) returns (r: FailResult)
      modifies this`messages, this`entries, this`accounts
      ensures (State(), r) == Execution.FailClaim(old(State()), message, entry, token, code, now)
      ensures old(Valid()) ==> Valid()
    {
      hide StoreInv;
      FailKeepsValid(State(), message, entry, token, code, now);
      if message !in messages { return FailIntegrity; }
      var row := messages[message];
      if row.status != Pending { return FailIgnored; }
      if row.token != Some(token) { return FailIgnored; }
      if row.entry != Some(entry) { return FailIntegrity; }
      if entry !in entries || entries[entry].account !in accounts { return FailIntegrity; }
      var held := entries[entry];
      if held.status == Reserved {
        var account := accounts[held.account];
        if account.reserved < 1 { return FailIntegrity; }
        accounts := accounts[held.account := account.(reserved := account.reserved - 1)];
        held := held.(status := Released, releasedAt := Some(now), reason := Some(code), consumedAt := None);
        entries := entries[entry := held];
      } else if held.status != Released {
        return FailIntegrity;
      }
      row := row.(status := Failed, completedAt := Some(now), error := Some(code));
      row := row.(token := None, leaseUntil := None);
      messages := messages[message := row];
      r := FailSettled;
    }

    method CompleteClaim(message: Id, entry: Id, token: Id, text: string, accepted: bool, now: Time) returns (r: CompleteResult)
      modifies this`accounts, this`entries, this`messages, this`replies, this`replyIndex, this`nextId
      ensures (State(), r) == Execution.CompleteClaim(old(State()), message, entry, token, text, accepted, now)
      ensures old(Valid()) ==> Valid()
    {
      hide StoreInv;
      CompleteKeepsValid(State(), message, entry, token, text, accepted, now);
      if message !in messages || messages[message].conversation !in conversations { return CompleteIntegrity; }
      var row := messages[message];
      if row.status == Completed {
        if message !in replyIndex { return CompleteIntegrity; }
        if entry !in entries || entries[entry].account !in accounts { return CompleteEscaped; }
        return CompletedBefore(replyIndex[message]);
      }
      if row.status == Failed {
        if row.error.None? { return CompleteIntegrity; }
        return FailedBefore(row.error.value);
      }
      if row.token != Some(token) || row.entry != Some(entry) { return Superseded; }
      if entry !in entries || entries[entry].account !in accounts { return CompleteIntegrity; }
      var held := entries[entry];
      if held.status != Reserved { return CompleteIntegrity; }
      var account := accounts[held.account];
      if account.reserved < 1 { return CompleteIntegrity; }
      if !accepted || message in replyIndex { return CompleteIntegrity; }
      var id := StoreAnswer(message, entry, text, now);
      r := CompletedNow(id);
    }

    /** The rows written and changed together when an answer is stored. */
    method StoreAnswer(message: Id, entry: Id, text: string, now: Time) returns (id: Id)
      requires message in messages && entry in entries && entries[entry].account in accounts
      modifies this`accounts, this`entries, this`messages, this`replies, this`replyIndex, this`nextId
      ensures id == old(nextId)
      ensures var row := old(messages)[message];
        State() == old(State()).(
          ledger := MarkConsumed(old(LedgerState()), entry, now),
          messages := old(messages)[message := CompletedRow(row, now)],
          replies := old(replies)[id := Reply(row.key.business, row.conversation, message, entry, text, now)],
          replyIndex := old(replyIndex)[message := id],
          nextId := old(nextId) + 1)
    {
      var row := messages[message];
      var held := entries[entry];
      var account := accounts[held.account];
      id := NewId();
      replies := replies[id := Reply(row.key.business, row.conversation, message, entry, text, now)];
      replyIndex := replyIndex[message := id];
      row := row.(status := Completed, completedAt := Some(now), error := None);
      messages := messages[message := row.(token := None, leaseUntil := None)];
      account := account.(reserved := account.reserved - 1);
      accounts := accounts[held.account := account.(consumed := account.consumed + 1)];
      entries := entries[entry := held.(status := Consumed, consumedAt := Some(now), releasedAt := None, reason := None)];
    }

    // -------------------------------------------------------------- one request

    /** The failure of a claimed request. */
    method FinishFailure(message: Id, entry: Id, token: Id, code: ErrorCode, clock: Time, ghost w: World, ghost c: Id)
      returns (outcome: Outcome)
      requires w.store == State() && w.clock == clock && PhaseOf(w, c) == Failing(message, entry, token, code)
      modifies this
      ensures State() == Step(w, TakeFail(c)).store && PhaseOf(Step(w, TakeFail(c)), c) == Done(outcome)
    {
      hide Step, Execution.FailClaim;
      FailView(w, c);
      var r := FailClaim(message, entry, token, code, clock);
      outcome := if r.FailIntegrity? && code != PersistenceFailure then Escaped else Rejected(code);
    }

    /** The completion of a claimed request; rows the database rejects turn it into a failure. */
    method FinishCompletion(message: Id, entry: Id, token: Id, text: string, accepted: bool, clock: Time, ghost w: World, ghost c: Id)
      returns (outcome: Outcome)
      requires w.store == State() && w.clock == clock && PhaseOf(w, c) == Completing(message, entry, token, text)
      modifies this
      ensures var w' := Step(Step(w, TakeComplete(c, accepted)), TakeFail(c)); State() == w'.store && PhaseOf(w', c) == Done(outcome)
    {
      hide Step, Execution.CompleteClaim;
      ghost var completed := Step(w, TakeComplete(c, accepted));
      CompleteView(w, c, accepted);
      NotDue(completed, TakeFail(c), c);
      var r := CompleteClaim(message, entry, token, text, accepted, clock);
      match r
      case CompletedNow(reply) => outcome := Answered(reply);
      case CompletedBefore(reply) => outcome := Answered(reply);
      case FailedBefore(code) => outcome := Rejected(code);
      case Superseded => outcome := StillRunning;
      case CompleteEscaped => outcome := Escaped;
      case CompleteIntegrity => outcome := FinishFailure(message, entry, token, PersistenceFailure, clock, completed, c);
    }

    /** The provider call under a claim, and the settlement that follows it. */
    method FinishCall(message: Id, entry: Id, token: Id, response: Response, accepted: bool, clock: Time, ghost w: World, ghost c: Id)
      returns (outcome: Outcome)
      requires w.store == State() && w.clock == clock && PhaseOf(w, c) == Holding(message, entry, token) && token in w.calls
      modifies this
      ensures var w' := Run(w, CallScript(c, response, accepted)); State() == w'.store && PhaseOf(w', c) == Done(outcome)
    {
      hide Run, Step;
      FourSteps(w, StartCall(c), EndCall(c, response), TakeComplete(c, accepted), TakeFail(c));
      ghost var called := Step(Step(w, StartCall(c)), EndCall(c, response));
      CallView(w, c, response);
      NotDue(called, TakeComplete(c, accepted), c);
      if response.GatewayError? {
        outcome := FinishFailure(message, entry, token, ProviderErrorCode(response.failure), clock, called, c);
      } else if |response.text| > MESSAGE_CONTENT_MAX_LENGTH {
        outcome := FinishFailure(message, entry, token, ResponseTooLarge, clock, called, c);
      } else if message in messages && messages[message].conversation in conversations
                && conversations[messages[message].conversation].purpose == DashboardAnalysis && !response.validAnalysis {
        outcome := FinishFailure(message, entry, token, ProviderInvalid, clock, called, c);
      } else {
        outcome := FinishCompletion(message, entry, token, response.text, accepted, clock, called, c);
      }
    }

    /** The recovery after a claim that cannot be made: give the credit back and mark the message. */
    method AbandonClaim(message: Id, entry: Id, clock: Time, ghost w: World, ghost c: Id) returns (outcome: Outcome)
      requires w.store == State() && w.clock == clock && PhaseOf(w, c) == Releasing(message, entry)
      modifies this
      ensures var w' := Step(Step(w, TakeRelease(c)), TakeMark(c)); State() == w'.store && PhaseOf(w', c) == Done(outcome)
    {
      hide Step, CreditLedger.Release, MarkFailed;
      ghost var released := Step(w, TakeRelease(c));
      ReleaseView(w, c);
      var r := Release(entry, ExecutionIntegrity, clock);
      assert released.store == State();
      if r.Settlement? {
        MarkView(released, c);
        MarkPreReservationFailure(message, ExecutionIntegrity, clock);
      } else {
        NotDue(released, TakeMark(c), c);
      }
      outcome := Rejected(ExecutionIntegrity);
    }

    /** The claim of a reserved request, and everything after it. */
    method FinishClaim(message: Id, snapshot: Snapshot, response: Response, accepted: bool, timeout: int, clock: Time, ghost w: World, ghost c: Id)
      returns (outcome: Outcome)
      requires w.store == State() && w.clock == clock && w.timeout == timeout && PhaseOf(w, c) == Claiming(message, snapshot, clock)
      modifies this
      ensures var w' := Run(Step(w, TakeClaim(c)), RecoveryScript(c, response, accepted));
        State() == w'.store && PhaseOf(w', c) == Done(outcome)
    {
      hide Run, Step, CallScript, Execution.Claim;
      ghost var claimed := Step(w, TakeClaim(c));
      ghost var released := Step(claimed, TakeRelease(c));
      ghost var marked := Step(released, TakeMark(c));
      ScriptHead(claimed, TakeRelease(c), TakeMark(c), CallScript(c, response, accepted));
      ClaimView(w, c);
      var r := Claim(message, snapshot, clock, LeaseDuration(timeout));
      if !r.ClaimIntegrity? {
        NotDue(claimed, TakeRelease(c), c);
        NotDue(released, TakeMark(c), c);
      }
      match r {
        case Claimed(token) =>
          outcome := FinishCall(message, snapshot.entry, token, response, accepted, clock, claimed, c);
          return;
        case ClaimIntegrity => outcome := AbandonClaim(message, snapshot.entry, clock, claimed, c);
        case ClaimInProgress => outcome := StillRunning;
        case ClaimCompleted(reply) => outcome := Answered(reply);
        case ClaimFailed(code) => outcome := Rejected(code);
        case ClaimEscaped => outcome := Escaped;
      }
      CallScriptIsOwn(c, response, accepted);
      DoneIsFinal(marked, CallScript(c, response, accepted), c);
    }

    /** The reservation of a submitted request, and everything after it. */
    method FinishReserve(key: Key, message: Id, access: Access, response: Response, accepted: bool, timeout: int, clock: Time, ghost w: World, ghost c: Id)
      returns (outcome: Outcome)
      requires w.store == State() && w.clock == clock && w.timeout == timeout && PhaseOf(w, c) == Reserving(key, message, clock)
      modifies this
      ensures var w' := Run(Step(Step(Step(w, TakeReserve(c, access)), TakeDeny(c)), TakeClaim(c)), RecoveryScript(c, response, accepted));
        State() == w'.store && PhaseOf(w', c) == Done(outcome)
    {
      hide Run, Step, RecoveryScript, Execution.ReserveCredit, MarkFailed;
      ghost var reserved := Step(w, TakeReserve(c, access));
      ghost var denied := Step(reserved, TakeDeny(c));
      ReserveView(w, c, access);
      var r := ReserveCredit(key, access, clock);
      if r.Reservation? {
        NotDue(reserved, TakeDeny(c), c);
        outcome := FinishClaim(message, r.snapshot, response, accepted, timeout, clock, denied, c);
      } else {
        var code := ReservationErrorCode(r.refusal);
        DenyView(reserved, c);
        MarkPreReservationFailure(message, code, clock);
        outcome := Rejected(code);
        NotDue(denied, TakeClaim(c), c);
        CallScriptIsOwn(c, response, accepted);
        DoneIsFinal(denied, RecoveryScript(c, response, accepted), c);
      }
    }

    /**
      One request from its first transaction to its last, with nobody else in between, from any state `w` of the
      world whose tables these are. `clock` is the time of all its transactions; the last parameters are what the
      services it calls answer.
      */
    method Execute(key: Key, conversation: Id, author: Id, content: string, timeout: int, clock: Time,
                   access: Access, response: Response, accepted: bool, ghost row: Message, ghost w: World, ghost c: Id)
      returns (outcome: Outcome)
      requires row.key == key && row.conversation == conversation && row.author == author && row.content == content
      requires w.store == State() && w.clock == clock && w.timeout == timeout && PhaseOf(w, c).Idle?
      modifies this
      ensures var w' := Run(w, RequestScript(c, row, access, response, accepted));
        && State() == w'.store && PhaseOf(w', c) == Done(outcome)
        && (WorldInv(w) ==> WorldInv(w') && Valid())
      ensures WorldInv(w) && Finishable(w.store, row, clock) ==>
        && key in messageIndex && KeySettled(State(), messageIndex[key])
        && (outcome.Answered? <==> Answers.Served(w.store, row, access, response, accepted))
        && (outcome.Answered? ==> outcome.reply in replies && replies[outcome.reply].content == response.text
                                  && replies[outcome.reply].replyTo == messageIndex[key])
        && (!outcome.Answered? ==> outcome.Rejected? && messageIndex[key] in messages
                                   && messages[messageIndex[key]].error == Some(outcome.code) && messageIndex[key] !in replyIndex)
    {
      hide Run, Step, RecoveryScript, RequestScript, Execution.Submit, Finishable, WorldInv, KeySettled, StoreInv, Answers.Served;
      RequestEnds(w, c, row, access, response, accepted);
      ghost var begun := Step(w, Begin(c, key, conversation, author, content));
      BeginView(w, c, key, conversation, author, content);
      RequestUnrolled(w, c, row, access, response, accepted);
      ghost var rest := [TakeReserve(c, access), TakeDeny(c), TakeClaim(c)] + RecoveryScript(c, response, accepted);
      ghost var before := State();
      var submission := Submit(key, conversation, author, content);
      SubmittedRow(before, key, conversation, author, content);
      if !submission.Submitted? {
        DoneIsFinal(begun, rest, c);
        return NotAccepted;
      }
      var message := submission.message;
      if submission.replayed && message in messages {
        var existing := messages[message];
        if existing.status == Failed {
          DoneIsFinal(begun, rest, c);
          return if existing.error.None? then Escaped else Rejected(existing.error.value);
        }
        if existing.status == Completed {
          DoneIsFinal(begun, rest, c);
          if message !in replyIndex || existing.entry.None?
             || existing.entry.value !in entries || entries[existing.entry.value].account !in accounts {
            return Escaped;
          }
          return Answered(replyIndex[message]);
        }
      }
      outcome := FinishReserve(key, message, access, response, accepted, timeout, clock, begun, c);
    }
  }

  // ---------------------------------------------------------------- single steps, as a request sees them

  lemma SubmittedRow(s: Store, key: Key, conversation: Id, author: Id, content: string)
    ensures var (s', r) := Execution.Submit(s, key, conversation, author, content);
      (r.Submitted? && r.replayed) || !r.Submitted? ==> s' == s
  {
  }

  lemma BeginView(w: World, c: Id, key: Key, conversation: Id, author: Id, content: string)
    requires PhaseOf(w, c).Idle?
    ensures var (s', r) := Execution.Submit(w.store, key, conversation, author, content);
      Step(w, Begin(c, key, conversation, author, content)) == At(w.(store := s'), c, AfterSubmit(w.store, key, r, w.clock))
  {
  }

  lemma ReserveView(w: World, c: Id, access: Access)
    requires PhaseOf(w, c).Reserving?
    ensures var Reserving(key, message, now) := PhaseOf(w, c);
      var (s', r) := Execution.ReserveCredit(w.store, key, access, now);
      Step(w, TakeReserve(c, access)) == At(w.(store := s'), c, AfterReserve(message, r, now))
  {
  }

  lemma DenyView(w: World, c: Id)
    requires PhaseOf(w, c).Denying?
    ensures var Denying(message, code, now) := PhaseOf(w, c);
      Step(w, TakeDeny(c)) == At(w.(store := MarkFailed(w.store, message, code, now)), c, Done(Rejected(code)))
  {
  }

  lemma ClaimView(w: World, c: Id)
    requires PhaseOf(w, c).Claiming?
    ensures var Claiming(message, snapshot, now) := PhaseOf(w, c);
      var (s', r) := Execution.Claim(w.store, message, snapshot, now, LeaseDuration(w.timeout));
      var w' := Step(w, TakeClaim(c));
      && w'.store == s' && w'.clock == w.clock && PhaseOf(w', c) == AfterClaim(message, snapshot.entry, r)
      && (r.Claimed? ==> r.token in w'.calls)
  {
    hide Execution.Claim;
  }

  lemma ReleaseView(w: World, c: Id)
    requires PhaseOf(w, c).Releasing?
    ensures var Releasing(message, entry) := PhaseOf(w, c);
      var (s', r) := Execution.ReleaseCredit(w.store, entry, ExecutionIntegrity, w.clock);
      Step(w, TakeRelease(c)) == At(w.(store := s'), c, AfterRelease(message, r))
  {
  }

  lemma MarkView(w: World, c: Id)
    requires PhaseOf(w, c).Marking?
    ensures Step(w, TakeMark(c)) == At(w.(store := MarkFailed(w.store, PhaseOf(w, c).message, ExecutionIntegrity, w.clock)), c, Done(Rejected(ExecutionIntegrity)))
  {
  }

  lemma CallView(w: World, c: Id, response: Response)
    requires PhaseOf(w, c).Holding? && PhaseOf(w, c).token in w.calls
    ensures var Holding(message, entry, token) := PhaseOf(w, c);
      var w' := Step(Step(w, StartCall(c)), EndCall(c, response));
      w'.store == w.store && w'.clock == w.clock && PhaseOf(w', c) == AfterCall(w.store, message, entry, token, response)
  {
    hide AfterCall;
    var Holding(message, entry, token) := PhaseOf(w, c);
    var w1 := Step(w, StartCall(c));
    assert PhaseOf(w1, c) == Calling(message, entry, token) && w1.store == w.store && token in w1.calls;
  }

  lemma CompleteView(w: World, c: Id, accepted: bool)
    requires PhaseOf(w, c).Completing?
    ensures var Completing(message, entry, token, text) := PhaseOf(w, c);
      var (s', r) := Execution.CompleteClaim(w.store, message, entry, token, text, accepted, w.clock);
      Step(w, TakeComplete(c, accepted)) == At(w.(store := s'), c, AfterComplete(message, entry, token, r))
  {
  }

  lemma FailView(w: World, c: Id)
    requires PhaseOf(w, c).Failing?
    ensures var Failing(message, entry, token, code) := PhaseOf(w, c);
      var (s', r) := Execution.FailClaim(w.store, message, entry, token, code, w.clock);
      Step(w, TakeFail(c)) == At(w.(store := s'), c, AfterFail(code, r))
  {
  }

  /** A step that is not due in the request's phase. */
  lemma NotDue(w: World, a: Action, c: Id)
    requires a == TakeDeny(c) || a == TakeClaim(c) || a == TakeRelease(c) || a == TakeMark(c) || a == TakeFail(c)
      || (a.TakeComplete? && a.client == c)
    ensures var p := PhaseOf(w, c);
      && (a.TakeDeny? && !p.Denying? ==> Step(w, a) == w)
      && (a.TakeClaim? && !p.Claiming? ==> Step(w, a) == w)
      && (a.TakeRelease? && !p.Releasing? ==> Step(w, a) == w)
      && (a.TakeMark? && !p.Marking? ==> Step(w, a) == w)
      && (a.TakeFail? && !p.Failing? ==> Step(w, a) == w)
      && (a.TakeComplete? && !p.Completing? ==> Step(w, a) == w)
  {
  }

  /** A request run uninterrupted from a state of the world keeps the invariant and settles its key. */
  lemma RequestEnds(w: World, c: Id, row: Message, access: Access, response: Response, accepted: bool)
    requires PhaseOf(w, c).Idle?
    ensures var w' := Run(w, RequestScript(c, row, access, response, accepted));
      && (WorldInv(w) ==> WorldInv(w') && StoreInv(w'.store))
      && (WorldInv(w) && Finishable(w.store, row, w.clock) ==>
            && row.key in w'.store.messageIndex && KeySettled(w'.store, w'.store.messageIndex[row.key])
            && EndsWell(w', c, w'.store.messageIndex[row.key], Answers.Served(w.store, row, access, response, accepted), response))
  {
    hide Run, RequestScript, WorldInv, Finishable, KeySettled, StoreInv, Answers.Served;
    if WorldInv(w) {
      RunKeeps(w, RequestScript(c, row, access, response, accepted));
      StoreInvOf(Run(w, RequestScript(c, row, access, response, accepted)));
      if Finishable(w.store, row, w.clock) {
        RequestSettles(w, c, row, access, response, accepted);
        Answers.AnsweredExactlyWhenServed(w, c, row, access, response, accepted);
      }
    }
  }

  /** An answered request holds the provider's text; any other was rejected, and its message says why. */
  predicate EndsWell(w: World, c: Id, m: Id, served: bool, response: Response) {
    && PhaseOf(w, c).Done?
    && var outcome := PhaseOf(w, c).outcome;
    && (outcome.Answered? <==> served)
    && (outcome.Answered? ==>
          && response.Generated? && outcome.reply in w.store.replies
          && w.store.replies[outcome.reply].content == response.text && w.store.replies[outcome.reply].replyTo == m)
    && (!outcome.Answered? ==>
          && outcome.Rejected? && m in w.store.messages
          && w.store.messages[m].error == Some(outcome.code) && m !in w.store.replyIndex)
  }

  lemma ConsumeKeepsValid(l: Ledger, id: Id, now: Time)
    ensures LedgerInv(l) ==> LedgerInv(CreditLedger.Consume(l, id, now).0)
  {
    if LedgerInv(l) { LedgerLemmas.ConsumeKeeps(l, id, now); }
  }

  lemma ReleaseKeepsValid(l: Ledger, id: Id, reason: ErrorCode, now: Time)
    ensures LedgerInv(l) ==> LedgerInv(CreditLedger.Release(l, id, reason, now).0)
  {
    if LedgerInv(l) { LedgerLemmas.ReleaseKeeps(l, id, reason, now); }
  }

  lemma ClaimKeepsValid(s: Store, message: Id, snapshot: Snapshot, now: Time, lease: int)
    ensures StoreInv(s) && Paired(s, message, snapshot.entry) && s.ledger.entries[snapshot.entry].status == Reserved ==>
      StoreInv(Execution.Claim(s, message, snapshot, now, lease).0)
  {
    if StoreInv(s) && Paired(s, message, snapshot.entry) && s.ledger.entries[snapshot.entry].status == Reserved {
      ClaimKeeps(s, message, snapshot, now, lease);
    }
  }

  lemma MarkKeepsValid(s: Store, message: Id, code: ErrorCode, now: Time)
    ensures StoreInv(s) ==> StoreInv(Execution.MarkFailed(s, message, code, now))
  {
    if StoreInv(s) { MarkFailedKeeps(s, message, code, now); }
  }

  lemma FailKeepsValid(s: Store, message: Id, entry: Id, token: Id, code: ErrorCode, now: Time)
    ensures StoreInv(s) ==> StoreInv(Execution.FailClaim(s, message, entry, token, code, now).0)
  {
    if StoreInv(s) { FailClaimKeeps(s, message, entry, token, code, now); }
  }

  lemma CompleteKeepsValid(s: Store, message: Id, entry: Id, token: Id, text: string, accepted: bool, now: Time)
    ensures StoreInv(s) ==> StoreInv(Execution.CompleteClaim(s, message, entry, token, text, accepted, now).0)
  {
    if StoreInv(s) { CompleteClaimKeeps(s, message, entry, token, text, accepted, now); }
  }

  lemma ReserveKeepsValid(s: Store, key: Key, access: Access, now: Time)
    ensures StoreInv(s) ==> StoreInv(Execution.ReserveCredit(s, key, access, now).0)
  {
    if StoreInv(s) { ReserveCreditKeeps(s, key, access, now); }
  }

  lemma AdjustKeepsValid(s: Store, actorValid: bool, businessKnown: bool, key: Key, delta: int, reason: AdjustmentReason, access: Access)
    ensures StoreInv(s) ==>
      StoreInv(s.(ledger := CreditLedger.Adjust(s.ledger, actorValid, businessKnown, key, delta, reason, access).0))
  {
    if StoreInv(s) { AdjustStoreKeeps(s, actorValid, businessKnown, key, delta, reason, access); }
  }

  lemma SubmitKeepsValid(s: Store, key: Key, conversation: Id, author: Id, content: string)
    ensures StoreInv(s) ==> StoreInv(Execution.Submit(s, key, conversation, author, content).0)
  {
    if StoreInv(s) { SubmitKeeps(s, key, conversation, author, content); }
  }
}
