/** What becomes of the provider's answer: exactly which requests are answered with it, and with which code the others fail. */
module Answers {
  import opened CreditModel
  import opened CreditLedger
  import opened Execution
  import opened ExecutionLemmas
  import opened ExecutionRuns
  import opened RunLemmas
  import opened RunTheorems
  import opened RecoveryTheorems
  import opened Recoverability
  import opened StrandedCredits

  // ---------------------------------------------------------------- the two ends of a request

  /** The request ends with an answer that holds this text, stored for the message and charged to the key's entry. */
  ghost predicate AnsweredWith(w: World, c: Id, m: Id, text: string) {
    && PhaseOf(w, c).Done? && PhaseOf(w, c).outcome.Answered?
    && var reply := PhaseOf(w, c).outcome.reply;
    && m in w.store.messages && w.store.messages[m].status == Completed
    && reply in w.store.replies && m in w.store.replyIndex && w.store.replyIndex[m] == reply
    && w.store.replies[reply].replyTo == m && w.store.replies[reply].content == text
    && var e := w.store.replies[reply].entry;
    && w.store.messages[m].entry == Some(e) && e in w.store.ledger.entries
    && w.store.ledger.entries[e].status == Consumed && w.store.ledger.entries[e].key == w.store.messages[m].key
  }

  /** The request fails with this code, its message carries the code, and no entry of its key is charged or reserved. */
  ghost predicate FailedWith(w: World, c: Id, m: Id, code: ErrorCode) {
    && PhaseOf(w, c) == Done(Rejected(code))
    && m in w.store.messages && w.store.messages[m].status == Failed && w.store.messages[m].error == Some(code)
    && m !in w.store.replyIndex
    && forall e | e in w.store.ledger.entries && w.store.ledger.entries[e].key == w.store.messages[m].key ::
         w.store.ledger.entries[e].status == Released
  }

  /** The conversation asks for a dashboard analysis. */
  predicate WantsAnalysis(s: Store, conversation: Id) {
    conversation in s.conversations && s.conversations[conversation].purpose == DashboardAnalysis
  }

  /** An answer that may be stored: at most 12,000 characters, and a valid analysis where one is asked for. */
  predicate Usable(analysis: bool, response: Response) {
    response.Generated? && |response.text| <= 12_000 && (analysis ==> response.validAnalysis)
  }

  /** How a call ends, each provider failure with its own code. */
  ghost predicate CallSettled(w: World, c: Id, m: Id, analysis: bool, response: Response, accepted: bool) {
    && (Usable(analysis, response) && accepted ==> AnsweredWith(w, c, m, response.text))
    && (Usable(analysis, response) && !accepted ==> FailedWith(w, c, m, PersistenceFailure))
    && (response.Generated? && |response.text| > 12_000 ==> FailedWith(w, c, m, ResponseTooLarge))
    && (response.Generated? && |response.text| <= 12_000 && analysis && !response.validAnalysis ==> FailedWith(w, c, m, ProviderInvalid))
    && (response == GatewayError(Configuration) ==> FailedWith(w, c, m, ProviderConfiguration))
    && (response == GatewayError(Temporary) ==> FailedWith(w, c, m, ProviderTemporary))
    && (response == GatewayError(Blocked) ==> FailedWith(w, c, m, ProviderBlocked))
    && (response == GatewayError(RequestRejected) ==> FailedWith(w, c, m, ProviderRejected))
    && (response == GatewayError(Incomplete) ==> FailedWith(w, c, m, ProviderIncomplete))
    && (response == GatewayError(InvalidResponse) ==> FailedWith(w, c, m, ProviderInvalid))
    && (response == GatewayError(RequestInvalid) ==> FailedWith(w, c, m, ProviderInvalid))
    && (response == GatewayError(OtherFailure) ==> FailedWith(w, c, m, ProviderTemporary))
  }

  // ---------------------------------------------------------------- the last transaction

  lemma FailureIsRecorded(w: World, c: Id, m: Id, e: Id, t: Id, code: ErrorCode)
    requires WorldInv(w) && PhaseOf(w, c) == Failing(m, e, t, code) && Current(w.store, m, t)
    ensures FailedWith(Step(w, TakeFail(c)), c, m, code)
  {
    hide WorldInv, StoreInv, Step;
    PhaseSoundAt(w, c);
    StoreInvOf(w);
    HolderEntry(w.store, m, e);
    FailureRefundsOnce(w, c, m, e, t, code);
    SoleEntry(w.store, m, e);
  }

  lemma SoleEntry(s: Store, m: Id, e: Id)
    requires StoreInv(s) && Paired(s, m, e)
    ensures forall f | f in s.ledger.entries && s.ledger.entries[f].key == s.messages[m].key :: f == e
  {
    hide StoreInv;
    forall f | f in s.ledger.entries && s.ledger.entries[f].key == s.messages[m].key ensures f == e {
      EntryIndexedAt(s, f);
      EntryIndexedAt(s, e);
    }
  }

  lemma AnswerIsStored(w: World, c: Id, m: Id, e: Id, t: Id, text: string)
    requires WorldInv(w) && PhaseOf(w, c) == Completing(m, e, t, text) && Current(w.store, m, t)
    ensures AnsweredWith(Step(w, TakeComplete(c, true)), c, m, text)
  {
    hide WorldInv, StoreInv, Step;
    PhaseSoundAt(w, c);
    CompletionChargesOnce(w, c, m, e, t, text, true);
  }

  lemma StepsAfterCall(w: World, c: Id, m: Id, e: Id, t: Id, analysis: bool, response: Response, accepted: bool)
    requires WorldInv(w) && PhaseOf(w, c) == AfterCall(w.store, m, e, t, response) && Current(w.store, m, t)
    requires analysis == WantsAnalysis(w.store, w.store.messages[m].conversation)
    ensures CallSettled(Step(Step(w, TakeComplete(c, accepted)), TakeFail(c)), c, m, analysis, response, accepted)
  {
    hide WorldInv, StoreInv, AnsweredWith, FailedWith;
    var w1 := Step(w, TakeComplete(c, accepted));
    if PhaseOf(w, c).Failing? {
      assert w1 == w;
      FailureIsRecorded(w, c, m, e, t, PhaseOf(w, c).code);
    } else if accepted {
      AnswerIsStored(w, c, m, e, t, response.text);
      CompletionChargesOnce(w, c, m, e, t, response.text, true);
      assert Step(w1, TakeFail(c)) == w1;
    } else {
      RejectedCompletion(w, c, m, e, t, response.text);
      StepKeeps(w, TakeComplete(c, accepted));
      FailureIsRecorded(w1, c, m, e, t, PersistenceFailure);
    }
  }

  /**
    From every world of the invariant, the client that holds the lease stores the provider's own text exactly when it
    is usable and the database takes the rows; in every other case the message fails with the code of that case.
    */
  lemma CallSettles(w: World, c: Id, m: Id, e: Id, t: Id, response: Response, accepted: bool)
    requires WorldInv(w) && PhaseOf(w, c) == Holding(m, e, t) && Current(w.store, m, t)
    ensures CallSettled(Run(w, CallScript(c, response, accepted)), c, m,
                        WantsAnalysis(w.store, w.store.messages[m].conversation), response, accepted)
  {
    hide WorldInv, StoreInv, CallSettled, Run;
    var w1 := Step(w, StartCall(c));
    var w2 := Step(w1, EndCall(c, response));
    PhaseSoundAt(w, c);
    StepKeeps(w, StartCall(c));
    StepKeeps(w1, EndCall(c, response));
    StepsAfterCall(w2, c, m, e, t, WantsAnalysis(w.store, w.store.messages[m].conversation), response, accepted);
    FourSteps(w, StartCall(c), EndCall(c, response), TakeComplete(c, accepted), TakeFail(c));
  }

  // ---------------------------------------------------------------- from the claim on

  lemma AbandonedFails(w: World, c: Id, m: Id, e: Id)
    requires WorldInv(w) && PhaseOf(w, c) == Releasing(m, e) && w.store.messages[m].status == Pending
    ensures FailedWith(Step(Step(w, TakeRelease(c)), TakeMark(c)), c, m, ExecutionIntegrity)
  {
    hide WorldInv, StoreInv, Evolves, Release;
    var w1 := Step(w, TakeRelease(c));
    var w2 := Step(w1, TakeMark(c));
    PhaseSoundAt(w, c);
    StoreInvOf(w);
    GroundlessEntry(w.store, m, e);
    ReleasedAlready(w.store, e, w.clock);
    StepKeeps(w, TakeRelease(c));
    StepKeeps(w1, TakeMark(c));
    StoreInvOf(w2);
    SoleEntry(w2.store, m, e);
    FailedHasNoReply(w2.store, m);
  }

  lemma FailedHasNoReply(s: Store, m: Id)
    requires StoreInv(s) && m in s.messages && s.messages[m].status == Failed
    ensures m !in s.replyIndex
  {
    hide MessagesSound, MessageIndexExact, ConsumedHeld, ReleasedExplained, IdsIssued, LedgerInv;
  }

  /** How a claimed request ends. */
  ghost predicate ClaimSettled(w: World, c: Id, m: Id, grounded: bool, analysis: bool, response: Response, accepted: bool) {
    if grounded then CallSettled(w, c, m, analysis, response, accepted) else FailedWith(w, c, m, ExecutionIntegrity)
  }

  predicate IsGrounded(s: Store, conversation: Id) {
    conversation in s.conversations && s.conversations[conversation].grounded
  }

  lemma ClaimSettles(w: World, c: Id, m: Id, snapshot: Snapshot, now: Time, response: Response, accepted: bool)
    requires WorldInv(w) && PhaseOf(w, c) == Claiming(m, snapshot, now)
    requires w.store.messages[m].status == Pending && !LeaseActive(w.store.messages[m], now)
    ensures var conversation := w.store.messages[m].conversation;
      ClaimSettled(Run(Step(w, TakeClaim(c)), RecoveryScript(c, response, accepted)), c, m,
                   IsGrounded(w.store, conversation), WantsAnalysis(w.store, conversation), response, accepted)
  {
    hide WorldInv, StoreInv, CallSettled, FailedWith, Run, CallScript;
    var w1 := Step(w, TakeClaim(c));
    var w2 := Step(w1, TakeRelease(c));
    var w3 := Step(w2, TakeMark(c));
    StoreInvOf(w);
    PhaseSoundAt(w, c);
    SoundAt(w.store, m);
    StepKeeps(w, TakeClaim(c));
    ClaimGuardExactlyWhen(w, c);
    ScriptHead(w1, TakeRelease(c), TakeMark(c), CallScript(c, response, accepted));
    var r := Claim(w.store, m, snapshot, now, LeaseDuration(w.timeout)).1;
    if r.Claimed? {
      assert w3 == w1;
      CallSettles(w1, c, m, snapshot.entry, r.token, response, accepted);
    } else {
      AbandonedFails(w1, c, m, snapshot.entry);
      CallScriptIsOwn(c, response, accepted);
      assert PhaseOf(w3, c).Done? by { IntegrityEnds(w1, c, m, snapshot.entry); }
      DoneIsFinal(w3, CallScript(c, response, accepted), c);
    }
  }

  // ---------------------------------------------------------------- from the reservation on

  /** The account's use has reached its limit, which is not negative. */
  predicate UsedUp(l: Ledger, key: Key, access: Access) {
    && access.Granted? && access.base.Some?
    && var account := access.AccountOf(key.business);
    && var limit := access.base.value + DeltaTotal(l.adjustments, account);
    && 0 <= limit
    && if account in l.accounts then limit <= l.accounts[account].reserved + l.accounts[account].consumed
       else account.periodStart < account.periodEnd && access.base.value >= 0 && limit == 0
  }

  /** How a submitted request ends, each refusal of the reservation with its own code. */
  ghost predicate RequestSettled(w: World, c: Id, m: Id, l: Ledger, key: Key, access: Access,
                                 grounded: bool, analysis: bool, response: Response, accepted: bool)
  {
    if key in l.entryIndex || CanReserve(l, key, access) then ClaimSettled(w, c, m, grounded, analysis, response, accepted)
    else
      && (access.NoSubscription? ==> FailedWith(w, c, m, SubscriptionRequired))
      && (access.Inactive? ==> FailedWith(w, c, m, SubscriptionInactive))
      && (access.NoPeriod? ==> FailedWith(w, c, m, ExecutionIntegrity))
      && (access.Denied? ==> FailedWith(w, c, m, EntitlementDenied))
      && (access.Granted? ==> FailedWith(w, c, m, if UsedUp(l, key, access) then CreditLimitReached else ExecutionIntegrity))
  }

  lemma RefusalOf(l: Ledger, id: Id, key: Key, access: Access, now: Time)
    requires key !in l.entryIndex && !CanReserve(l, key, access)
    ensures Reserve(l, id, key, access, now) == (l, Refused(
      if access.NoSubscription? then NeedsSubscription
      else if access.Inactive? then NotActive
      else if access.Denied? then NotEntitled
      else if UsedUp(l, key, access) then LimitReached
      else CreditIntegrity))
  {
    hide DeltaTotal;
  }

  lemma RefusedRequestFails(w: World, c: Id, m: Id, access: Access, now: Time)
    requires WorldInv(w) && m in w.store.messages && PhaseOf(w, c) == Reserving(w.store.messages[m].key, m, now)
    requires w.store.messages[m].status == Pending
    requires PhaseOf(Step(w, TakeReserve(c, access)), c).Denying?
    ensures var w1 := Step(w, TakeReserve(c, access));
      && PhaseOf(w1, c).message == m && FailedWith(Step(w1, TakeDeny(c)), c, m, PhaseOf(w1, c).code)
  {
    hide WorldInv, StoreInv, Reserve;
    StoreInvOf(w);
    RefusedMeansNoEntry(w.store, m, access, now);
    PendingHasNoReply(w.store, m);
  }

  lemma PendingHasNoReply(s: Store, m: Id)
    requires StoreInv(s) && m in s.messages && s.messages[m].status == Pending
    ensures m !in s.replyIndex
  {
    hide MessagesSound, MessageIndexExact, ConsumedHeld, ReleasedExplained, IdsIssued, LedgerInv;
  }

  lemma ReserveSettles(w: World, c: Id, m: Id, access: Access, now: Time, response: Response, accepted: bool)
    requires WorldInv(w) && m in w.store.messages && PhaseOf(w, c) == Reserving(w.store.messages[m].key, m, now)
    requires w.store.messages[m].status == Pending && !LeaseActive(w.store.messages[m], now)
    ensures var row := w.store.messages[m];
      RequestSettled(Run(Step(Step(Step(w, TakeReserve(c, access)), TakeDeny(c)), TakeClaim(c)), RecoveryScript(c, response, accepted)),
                     c, m, w.store.ledger, row.key, access, IsGrounded(w.store, row.conversation),
                     WantsAnalysis(w.store, row.conversation), response, accepted)
  {
    hide WorldInv, StoreInv, Run, RecoveryScript, ClaimSettled, FailedWith, CanReserve, UsedUp, Reserve;
    StoreInvOf(w);
    var key := w.store.messages[m].key;
    var w1 := Step(w, TakeReserve(c, access));
    var w2 := Step(w1, TakeDeny(c));
    StepKeeps(w, TakeReserve(c, access));
    ReserveFacts(w.store, key, access, now);
    ReservedOrRefused(w.store, key, access, now);
    if PhaseOf(w1, c).Claiming? {
      assert w2 == w1;
      ClaimSettles(w1, c, m, PhaseOf(w1, c).snapshot, now, response, accepted);
    } else {
      RefusalOf(w.store.ledger, w.store.nextId, key, access, now);
      RefusedRequestFails(w, c, m, access, now);
      assert Step(w2, TakeClaim(c)) == w2;
      CallScriptIsOwn(c, response, accepted);
      DoneIsFinal(w2, RecoveryScript(c, response, accepted), c);
      RefusalSettles(w2, c, m, w.store.ledger, key, access, IsGrounded(w.store, w.store.messages[m].conversation),
                     WantsAnalysis(w.store, w.store.messages[m].conversation), response, accepted, PhaseOf(w1, c).code);
    }
  }

  lemma RefusalSettles(w: World, c: Id, m: Id, l: Ledger, key: Key, access: Access,
                       grounded: bool, analysis: bool, response: Response, accepted: bool, code: ErrorCode)
    requires key !in l.entryIndex && !CanReserve(l, key, access) && FailedWith(w, c, m, code)
    requires code == ReservationErrorCode(
      if access.NoSubscription? then NeedsSubscription
      else if access.Inactive? then NotActive
      else if access.Denied? then NotEntitled
      else if UsedUp(l, key, access) then LimitReached
      else CreditIntegrity)
    ensures RequestSettled(w, c, m, l, key, access, grounded, analysis, response, accepted)
  {
    hide FailedWith, CanReserve;
  }

  lemma ReservedOrRefused(s: Store, key: Key, access: Access, now: Time)
    requires StoreInv(s)
    ensures ReserveCredit(s, key, access, now).1.Reservation? <==> key in s.ledger.entryIndex || CanReserve(s.ledger, key, access)
    ensures ReserveCredit(s, key, access, now).0.conversations == s.conversations
  {
    hide MessagesSound, MessageIndexExact, ConsumedHeld, ReleasedExplained, RepliesSound, IdsIssued, CanReserve, CountersExact, WithinLimits, AdjustmentsChained;
    if key !in s.ledger.entryIndex {
      ReservesExactlyWhen(s.ledger, s.nextId, key, access, now);
      hide Reserve;
    }
  }

  /**
    The whole request, new or taken up again: its answer is the provider's text exactly when the credit can be had,
    the conversation's context can be rendered, the text is usable and the database takes the rows; otherwise the
    message fails with the code of the first of these that is missing.
    */
  lemma RequestAnswers(w: World, c: Id, row: Message, access: Access, response: Response, accepted: bool)
    requires WorldInv(w) && PhaseOf(w, c).Idle? && Finishable(w.store, row, w.clock)
    ensures var w' := Run(w, RequestScript(c, row, access, response, accepted));
      && row.key in w'.store.messageIndex
      && RequestSettled(w', c, w'.store.messageIndex[row.key], w.store.ledger, row.key, access,
                        IsGrounded(w.store, row.conversation), WantsAnalysis(w.store, row.conversation), response, accepted)
  {
    hide WorldInv, StoreInv, RequestSettled, Run, RecoveryScript, Finishable, Step;
    var begin := Begin(c, row.key, row.conversation, row.author, row.content);
    var w1 := Step(w, begin);
    StepKeeps(w, begin);
    BegunReserving(w, c, row);
    BegunSame(w, c, row);
    var m := w1.store.messageIndex[row.key];
    var rest := [TakeReserve(c, access), TakeDeny(c), TakeClaim(c)] + RecoveryScript(c, response, accepted);
    ReserveSettles(w1, c, m, access, w.clock, response, accepted);
    RequestUnrolled(w, c, row, access, response, accepted);
    SettledForever(w1, rest);
    IndexStays(w1.store, Run(w1, rest).store, row.key);
  }

  /** Submitting touches neither the ledger nor the conversations, and the message is the row asked for. */
  lemma BegunSame(w: World, c: Id, row: Message)
    requires WorldInv(w) && PhaseOf(w, c).Idle? && Finishable(w.store, row, w.clock)
    ensures var w1 := Step(w, Begin(c, row.key, row.conversation, row.author, row.content));
      && w1.store.ledger == w.store.ledger && w1.store.conversations == w.store.conversations
      && row.key in w1.store.messageIndex && w1.store.messageIndex[row.key] in w1.store.messages
      && var m := w1.store.messages[w1.store.messageIndex[row.key]];
         m.conversation == row.conversation && m.author == row.author && m.content == row.content
  {
    hide WorldInv, StoreInv;
    StoreInvOf(w);
    if row.key in w.store.messageIndex {
      MessageIndexed(w.store, row.key);
    }
  }

  /** The request is answered: its credit can be had, its context rendered, its text used and its rows stored. */
  predicate Served(s: Store, row: Message, access: Access, response: Response, accepted: bool) {
    && (row.key in s.ledger.entryIndex || CanReserve(s.ledger, row.key, access))
    && IsGrounded(s, row.conversation)
    && Usable(WantsAnalysis(s, row.conversation), response)
    && accepted
  }

  lemma AnsweredExactlyWhenServed(w: World, c: Id, row: Message, access: Access, response: Response, accepted: bool)
    requires WorldInv(w) && PhaseOf(w, c).Idle? && Finishable(w.store, row, w.clock)
    ensures var w' := Run(w, RequestScript(c, row, access, response, accepted));
      && row.key in w'.store.messageIndex
      && var m := w'.store.messageIndex[row.key];
      if Served(w.store, row, access, response, accepted) then response.Generated? && AnsweredWith(w', c, m, response.text)
      else exists code :: FailedWith(w', c, m, code)
  {
    hide WorldInv, Finishable, AnsweredWith, FailedWith, CanReserve, UsedUp, Run, RequestScript;
    RequestAnswers(w, c, row, access, response, accepted);
    var w' := Run(w, RequestScript(c, row, access, response, accepted));
    if !Usable(WantsAnalysis(w.store, row.conversation), response) {
      CallFails(w', c, w'.store.messageIndex[row.key], WantsAnalysis(w.store, row.conversation), response, accepted);
    }
  }

  lemma CallFails(w: World, c: Id, m: Id, analysis: bool, response: Response, accepted: bool)
    requires !Usable(analysis, response)
    ensures CallSettled(w, c, m, analysis, response, accepted) ==> exists code :: FailedWith(w, c, m, code)
  {
    hide FailedWith, AnsweredWith;
    if response.GatewayError? {
      assert response == GatewayError(response.failure);
      match response.failure
      case Configuration =>
      case _ =>
    }
  }
}
