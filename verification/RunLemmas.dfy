/** Every step of every request keeps the world's invariant. */
module RunLemmas {
  import opened CreditModel
  import opened CreditLedger
  import opened Execution
  import opened ExecutionLemmas
  import opened ExecutionRuns

  lemma ReserveFacts(s: Store, key: Key, access: Access, now: Time)
    requires StoreInv(s)
    ensures ReserveCredit(s, key, access, now).0.messages == s.messages
    ensures var (s', r) := ReserveCredit(s, key, access, now);
      r.Reservation? ==>
        && r.snapshot.entry in s'.ledger.entries
        && s'.ledger.entries[r.snapshot.entry].key == key
        && s'.ledger.entries[r.snapshot.entry].status == r.snapshot.status
  {
    hide MessagesSound, MessageIndexExact, ConsumedHeld, ReleasedExplained, RepliesSound, IdsIssued, IndexExact, EntriesSound, CountersExact, WithinLimits, AdjustmentsChained;
    if key in s.ledger.entryIndex {
      IndexedKey(s.ledger, key);
    }
  }

  lemma IndexedKey(l: Ledger, key: Key)
    requires LedgerInv(l) && key in l.entryIndex
    ensures l.entryIndex[key] in l.entries && l.entries[l.entryIndex[key]].key == key
  {
  }

  lemma ReserveStepKeeps(w: World, c: Id, access: Access)
    requires WorldInv(w)
    ensures WorldInv(Step(w, TakeReserve(c, access)))
  {
    hide WorldInv, StoreInv, Evolves, TokensKept;
    StoreInvOf(w);
    PhaseSoundAt(w, c);
    if PhaseOf(w, c).Reserving? {
      var Reserving(key, message, now) := PhaseOf(w, c);
      var (s', r) := ReserveCredit(w.store, key, access, now);
      ReserveCreditKeeps(w.store, key, access, now);
      ReserveFacts(w.store, key, access, now);
      assert TokensKept(w.store.messages, s'.messages) by { SameTokens(w.store.messages); }
      StoreStep(w, s', c, AfterReserve(message, r, now));
    }
  }

  lemma SameTokens(messages: map<Id, Message>)
    ensures TokensKept(messages, messages)
  {
  }

  lemma StoreInvOf(w: World)
    requires WorldInv(w)
    ensures StoreInv(w.store)
  {
  }

  lemma MarkTokens(s: Store, message: Id, code: ErrorCode, now: Time)
    ensures TokensKept(s.messages, MarkFailed(s, message, code, now).messages)
  {
    hide TokensKept;
    if message in s.messages {
      KeepTokens(s.messages, message, FailedRow(s.messages[message], code, now));
    }
    SameTokens(s.messages);
  }

  lemma DenyStepKeeps(w: World, c: Id)
    requires WorldInv(w)
    ensures WorldInv(Step(w, TakeDeny(c)))
  {
    hide WorldInv, StoreInv, Evolves, TokensKept;
    StoreInvOf(w);
    if PhaseOf(w, c).Denying? {
      var Denying(message, code, now) := PhaseOf(w, c);
      MarkFailedKeeps(w.store, message, code, now);
      MarkTokens(w.store, message, code, now);
      StoreStep(w, MarkFailed(w.store, message, code, now), c, Done(Rejected(code)));
    }
  }

  lemma MarkStepKeeps(w: World, c: Id)
    requires WorldInv(w)
    ensures WorldInv(Step(w, TakeMark(c)))
  {
    hide WorldInv, StoreInv, Evolves, TokensKept;
    StoreInvOf(w);
    if PhaseOf(w, c).Marking? {
      var Marking(message) := PhaseOf(w, c);
      MarkFailedKeeps(w.store, message, ExecutionIntegrity, w.clock);
      MarkTokens(w.store, message, ExecutionIntegrity, w.clock);
      StoreStep(w, MarkFailed(w.store, message, ExecutionIntegrity, w.clock), c, Done(Rejected(ExecutionIntegrity)));
    }
  }

  // ---------------------------------------------------------------- the claim

  /** What a request in its claim phase finds. */
  lemma ClaimFacts(s: Store, message: Id, snapshot: Snapshot, now: Time, lease: int)
    requires StoreInv(s) && Paired(s, message, snapshot.entry)
    requires snapshot.status != Reserved ==> s.ledger.entries[snapshot.entry].status == snapshot.status
    ensures var r := Claim(s, message, snapshot, now, lease).1;
      && (r.Claimed? ==> s.ledger.entries[snapshot.entry].status == Reserved)
      && (r.ClaimIntegrity? ==> Ungrounded(s, message) || s.ledger.entries[snapshot.entry].status == Released)
      && r != ClaimEscaped
  {
    hide MessagesSound, RepliesSound, IdsIssued, CountersExact, WithinLimits, AdjustmentsChained;
    SoundAt(s, message);
    IndexedAt(s, message);
    EntryIndexedAt(s, snapshot.entry);
    CompletedHasReply(s, message);
    if s.messages[message].entry.Some? {
      EntryIndexedAt(s, s.messages[message].entry.value);
    }
  }

  lemma CompletedHasReply(s: Store, message: Id)
    requires StoreInv(s)
    ensures message in s.messages && s.messages[message].status == Completed ==> message in s.replyIndex
  {
    hide MessagesSound, MessageIndexExact, ConsumedHeld, ReleasedExplained, IdsIssued, LedgerInv;
  }

  lemma NewClaimCalls(w: World, message: Id, now: Time, row: Message)
    requires WorldInv(w) && message in w.store.messages && w.store.messages[message].status == Pending
    requires !LeaseActive(w.store.messages[message], now)
    requires row.token == Some(w.store.nextId) && row.leaseUntil == Some(now + LeaseDuration(w.timeout)) && row.status == Pending
    ensures w.store.nextId !in w.calls
    ensures var calls' := w.calls[w.store.nextId := Call(message, now, None, None)];
      && CallsCurrent(calls', w.store.messages[message := row], w.store.nextId + 1)
      && LeasesRecorded(calls', w.store.messages[message := row], LeaseDuration(w.timeout))
      && ClaimsSeparated(calls', LeaseDuration(w.timeout))
  {
    hide PhasesSound, TokensApart, MessagesSound, MessageIndexExact, ConsumedHeld, ReleasedExplained, RepliesSound, LedgerInv, IdsIssued;
    SoundAt(w.store, message);
  }

  lemma NewTokenApart(w: World, c: Id, message: Id, entry: Id)
    requires WorldInv(w)
    ensures TokensApart(w.clients[c := Holding(message, entry, w.store.nextId)])
  {
    hide StoreInv, LeasesRecorded, ClaimsSeparated;
    forall d | d in w.clients && w.clients[d].HasToken() ensures w.clients[d].token < w.store.nextId {
      assert PhaseSound(w.store, w.calls, w.clients[d]);
    }
  }

  lemma ClaimStepKeeps(w: World, c: Id)
    requires WorldInv(w)
    ensures WorldInv(Step(w, TakeClaim(c)))
  {
    hide StoreInv, PhasesSound, TokensApart, CallsCurrent, LeasesRecorded, ClaimsSeparated, Evolves, TokensKept;
    PhaseSoundAt(w, c);
    if PhaseOf(w, c).Claiming? {
      var Claiming(message, snapshot, now) := PhaseOf(w, c);
      var (s', r) := Claim(w.store, message, snapshot, now, LeaseDuration(w.timeout));
      ClaimFacts(w.store, message, snapshot, now, LeaseDuration(w.timeout));
      ClaimKeeps(w.store, message, snapshot, now, LeaseDuration(w.timeout));
      if r.Claimed? {
        NewClaimCalls(w, message, now, s'.messages[message]);
        NewTokenApart(w, c, message, snapshot.entry);
        var calls' := w.calls[r.token := Call(message, now, None, None)];
        PhasesStable(w.store, s', w.calls, calls', w.clients, c, Holding(message, snapshot.entry, r.token));
      } else {
        assert TokensKept(w.store.messages, s'.messages) by { SameTokens(w.store.messages); }
        StoreStep(w, s', c, AfterClaim(message, snapshot.entry, r));
      }
    }
  }

  lemma ReleaseStepKeeps(w: World, c: Id)
    requires WorldInv(w)
    ensures WorldInv(Step(w, TakeRelease(c)))
  {
    hide WorldInv, StoreInv, Evolves, TokensKept;
    StoreInvOf(w);
    PhaseSoundAt(w, c);
    if PhaseOf(w, c).Releasing? {
      var Releasing(message, entry) := PhaseOf(w, c);
      var (s', r) := ReleaseCredit(w.store, entry, ExecutionIntegrity, w.clock);
      IndexedAt(w.store, message);
      ReleaseCreditKeeps(w.store, entry, ExecutionIntegrity, w.clock);
      ReleaseGivesBack(w.store, message, entry, ExecutionIntegrity, w.clock);
      assert TokensKept(w.store.messages, s'.messages) by { SameTokens(w.store.messages); }
      StoreStep(w, s', c, AfterRelease(message, r));
    }
  }

  lemma ReleaseGivesBack(s: Store, message: Id, entry: Id, code: ErrorCode, now: Time)
    requires Paired(s, message, entry)
    ensures var (s', r) := ReleaseCredit(s, entry, code, now);
      s'.messages == s.messages && (r.Settlement? ==> GivenBack(s', message))
  {
    var (s', r) := ReleaseCredit(s, entry, code, now);
    if r.Settlement? {
      assert entry in s'.ledger.entries && s'.ledger.entries[entry].status == Released;
    }
  }

  // ---------------------------------------------------------------- the provider call

  lemma StampCalls(w: World, token: Id, call: Call)
    requires WorldInv(w) && token in w.calls && call.message == w.calls[token].message && call.checkedAt == w.calls[token].checkedAt
    ensures CallsCurrent(w.calls[token := call], w.store.messages, w.store.nextId)
    ensures LeasesRecorded(w.calls[token := call], w.store.messages, LeaseDuration(w.timeout))
    ensures ClaimsSeparated(w.calls[token := call], LeaseDuration(w.timeout))
  {
    hide StoreInv, PhasesSound, TokensApart;
  }

  lemma StampKeeps(w: World, c: Id, phase: Phase, token: Id, call: Call)
    requires WorldInv(w) && PhaseOf(w, c).HasToken() && PhaseOf(w, c).token == token && token in w.calls
    requires call.message == w.calls[token].message && call.checkedAt == w.calls[token].checkedAt
    requires phase.HasToken() && phase.token == token && phase.message == PhaseOf(w, c).message && phase.entry == PhaseOf(w, c).entry
    ensures WorldInv(At(w, c, phase).(calls := w.calls[token := call]))
  {
    hide StoreInv, PhasesSound, TokensApart, CallsCurrent, LeasesRecorded, ClaimsSeparated, Evolves;
    PhaseSoundAt(w, c);
    NothingEvolves(w.store);
    StampCalls(w, token, call);
    TokensStayApart(w.clients, c, phase);
    PhasesStable(w.store, w.store, w.calls, w.calls[token := call], w.clients, c, phase);
  }

  lemma StartStepKeeps(w: World, c: Id)
    requires WorldInv(w)
    ensures WorldInv(Step(w, StartCall(c)))
  {
    hide WorldInv;
    if PhaseOf(w, c).Holding? {
      var Holding(message, entry, token) := PhaseOf(w, c);
      if token in w.calls {
        StampKeeps(w, c, Calling(message, entry, token), token, w.calls[token].(started := Some(w.clock)));
      }
    }
  }

  lemma EndStepKeeps(w: World, c: Id, response: Response)
    requires WorldInv(w)
    ensures WorldInv(Step(w, EndCall(c, response)))
  {
    hide WorldInv;
    if PhaseOf(w, c).Calling? {
      var Calling(message, entry, token) := PhaseOf(w, c);
      if token in w.calls {
        StampKeeps(w, c, AfterCall(w.store, message, entry, token, response), token, w.calls[token].(ended := Some(w.clock)));
      }
    }
  }

  // ---------------------------------------------------------------- the settlement

  lemma FailTokens(s: Store, message: Id, entry: Id, token: Id, code: ErrorCode, now: Time)
    ensures TokensKept(s.messages, FailClaim(s, message, entry, token, code, now).0.messages)
  {
    hide TokensKept;
    if message in s.messages {
      KeepTokens(s.messages, message, FailedRow(s.messages[message], code, now));
    }
    SameTokens(s.messages);
  }

  lemma FailStepKeeps(w: World, c: Id)
    requires WorldInv(w)
    ensures WorldInv(Step(w, TakeFail(c)))
  {
    hide WorldInv, StoreInv, Evolves, TokensKept;
    StoreInvOf(w);
    if PhaseOf(w, c).Failing? {
      var Failing(message, entry, token, code) := PhaseOf(w, c);
      var (s', r) := FailClaim(w.store, message, entry, token, code, w.clock);
      FailClaimKeeps(w.store, message, entry, token, code, w.clock);
      FailTokens(w.store, message, entry, token, code, w.clock);
      StoreStep(w, s', c, AfterFail(code, r));
    }
  }

  lemma CompleteTokens(s: Store, message: Id, entry: Id, token: Id, text: string, accepted: bool, now: Time)
    ensures TokensKept(s.messages, CompleteClaim(s, message, entry, token, text, accepted, now).0.messages)
    ensures CompleteClaim(s, message, entry, token, text, accepted, now).1.CompleteIntegrity? ==>
      CompleteClaim(s, message, entry, token, text, accepted, now).0 == s
  {
    hide TokensKept;
    if message in s.messages {
      KeepTokens(s.messages, message, CompletedRow(s.messages[message], now));
    }
    SameTokens(s.messages);
  }

  lemma CompleteStepKeeps(w: World, c: Id, accepted: bool)
    requires WorldInv(w)
    ensures WorldInv(Step(w, TakeComplete(c, accepted)))
  {
    hide WorldInv, StoreInv, Evolves, TokensKept;
    StoreInvOf(w);
    PhaseSoundAt(w, c);
    if PhaseOf(w, c).Completing? {
      var Completing(message, entry, token, text) := PhaseOf(w, c);
      var (s', r) := CompleteClaim(w.store, message, entry, token, text, accepted, w.clock);
      CompleteClaimKeeps(w.store, message, entry, token, text, accepted, w.clock);
      CompleteTokens(w.store, message, entry, token, text, accepted, w.clock);
      StoreStep(w, s', c, AfterComplete(message, entry, token, r));
    }
  }

  lemma CrashKeeps(w: World, c: Id)
    requires WorldInv(w)
    ensures WorldInv(Step(w, Crash(c)))
  {
    hide WorldInv, StoreInv, Evolves, TokensKept;
    StoreInvOf(w);
    NothingEvolves(w.store);
    SameTokens(w.store.messages);
    StoreStep(w, w.store, c, Done(Crashed));
  }

  /** One step of anybody keeps the invariant. */
  lemma StepKeeps(w: World, a: Action)
    requires WorldInv(w)
    ensures WorldInv(Step(w, a))
  {
    hide WorldInv, StoreInv, Evolves;
    match a
    case Begin(c, key, conversation, author, content) => BeginKeeps(w, c, key, conversation, author, content);
    case TakeReserve(c, access) => ReserveStepKeeps(w, c, access);
    case TakeDeny(c) => DenyStepKeeps(w, c);
    case TakeClaim(c) => ClaimStepKeeps(w, c);
    case TakeRelease(c) => ReleaseStepKeeps(w, c);
    case TakeMark(c) => MarkStepKeeps(w, c);
    case StartCall(c) => StartStepKeeps(w, c);
    case EndCall(c, response) => EndStepKeeps(w, c, response);
    case TakeFail(c) => FailStepKeeps(w, c);
    case TakeComplete(c, accepted) => CompleteStepKeeps(w, c, accepted);
    case Crash(c) => CrashKeeps(w, c);
    case Tick(elapsed) => TickKeeps(w, elapsed);
    case AdjustCredit(actorValid, businessKnown, key, delta, reason, access) =>
      StoreInvOf(w);
      AdjustStoreKeeps(w.store, actorValid, businessKnown, key, delta, reason, access);
      EnvironmentStep(w, Step(w, a).store);
    case NewConversation(conversation) =>
      StoreInvOf(w);
      OpenConversationKeeps(w.store, conversation);
      EnvironmentStep(w, Step(w, a).store);
  }

  lemma TickKeeps(w: World, elapsed: nat)
    requires WorldInv(w)
    ensures WorldInv(Step(w, Tick(elapsed)))
  {
    hide StoreInv, PhasesSound, TokensApart, CallsCurrent, LeasesRecorded, ClaimsSeparated;
  }

  lemma InitialKeeps(timeout: int)
    ensures WorldInv(InitialWorld(timeout))
  {
  }

  /** The invariant holds after every run: any interleaving, crashes, replays, takeovers and adjustments. */
  lemma {:induction false} RunKeeps(w: World, actions: seq<Action>)
    requires WorldInv(w)
    ensures WorldInv(Run(w, actions))
  {
    hide WorldInv, Step;
    if actions == [] {
    } else {
      RunKeeps(w, actions[..|actions| - 1]);
      StepKeeps(Run(w, actions[..|actions| - 1]), actions[|actions| - 1]);
    }
  }

  lemma Reachable(timeout: int, actions: seq<Action>)
    ensures WorldInv(Run(InitialWorld(timeout), actions))
  {
    hide WorldInv, Run, InitialWorld;
    InitialKeeps(timeout);
    RunKeeps(InitialWorld(timeout), actions);
  }
}
