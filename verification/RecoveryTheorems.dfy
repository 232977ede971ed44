/** What is final, what a replay returns, how a request recovers, and where a credit can be stranded. */
module RecoveryTheorems {
  import opened CreditModel
  import opened CreditLedger
  import opened Execution
  import opened ExecutionLemmas
  import opened ExecutionRuns
  import opened RunLemmas
  import opened RunTheorems

  // ---------------------------------------------------------------- what is final

  lemma StepEvolves(w: World, a: Action)
    requires WorldInv(w)
    ensures Evolves(w.store, Step(w, a).store)
  {
    hide WorldInv, StoreInv, Evolves, PhaseSound;
    StoreInvOf(w);
    NothingEvolves(w.store);
    match a
    case Begin(c, key, conversation, author, content) => SubmitKeeps(w.store, key, conversation, author, content);
    case TakeReserve(c, access) =>
      if PhaseOf(w, c).Reserving? { ReserveCreditKeeps(w.store, PhaseOf(w, c).key, access, PhaseOf(w, c).now); }
    case TakeDeny(c) =>
      if PhaseOf(w, c).Denying? { MarkFailedKeeps(w.store, PhaseOf(w, c).message, PhaseOf(w, c).code, PhaseOf(w, c).now); }
    case TakeClaim(c) => ClaimEvolves(w, c);
    case TakeRelease(c) => ReleaseEvolves(w, c);
    case TakeMark(c) =>
      if PhaseOf(w, c).Marking? { MarkFailedKeeps(w.store, PhaseOf(w, c).message, ExecutionIntegrity, w.clock); }
    case StartCall(c) =>
    case EndCall(c, response) =>
    case TakeFail(c) =>
      if PhaseOf(w, c).Failing? {
        FailClaimKeeps(w.store, PhaseOf(w, c).message, PhaseOf(w, c).entry, PhaseOf(w, c).token, PhaseOf(w, c).code, w.clock);
      }
    case TakeComplete(c, accepted) =>
      if PhaseOf(w, c).Completing? {
        CompleteClaimKeeps(w.store, PhaseOf(w, c).message, PhaseOf(w, c).entry, PhaseOf(w, c).token, PhaseOf(w, c).text, accepted, w.clock);
      }
    case Crash(c) =>
    case Tick(elapsed) =>
    case AdjustCredit(actorValid, businessKnown, key, delta, reason, access) =>
      AdjustStoreKeeps(w.store, actorValid, businessKnown, key, delta, reason, access);
    case NewConversation(conversation) => OpenConversationKeeps(w.store, conversation);
  }

  lemma ClaimEvolves(w: World, c: Id)
    requires WorldInv(w)
    ensures Evolves(w.store, Step(w, TakeClaim(c)).store)
  {
    hide WorldInv, StoreInv, Evolves;
    StoreInvOf(w);
    NothingEvolves(w.store);
    PhaseSoundAt(w, c);
    if PhaseOf(w, c).Claiming? {
      var Claiming(message, snapshot, now) := PhaseOf(w, c);
      ClaimFacts(w.store, message, snapshot, now, LeaseDuration(w.timeout));
      ClaimKeeps(w.store, message, snapshot, now, LeaseDuration(w.timeout));
    }
  }

  lemma ReleaseEvolves(w: World, c: Id)
    requires WorldInv(w)
    ensures Evolves(w.store, Step(w, TakeRelease(c)).store)
  {
    hide WorldInv, StoreInv, Evolves;
    StoreInvOf(w);
    NothingEvolves(w.store);
    PhaseSoundAt(w, c);
    if PhaseOf(w, c).Releasing? {
      var Releasing(message, entry) := PhaseOf(w, c);
      IndexedAt(w.store, message);
      ReleaseCreditKeeps(w.store, entry, ExecutionIntegrity, w.clock);
    }
  }

  lemma EvolvesTransitive(a: Store, b: Store, c: Store)
    requires Evolves(a, b) && Evolves(b, c)
    ensures Evolves(a, c)
  {
    hide Grows, EntriesEvolve, MessagesEvolve;
    assert EntriesEvolve(a.ledger.entries, c.ledger.entries) by { EntriesTransitive(a.ledger.entries, b.ledger.entries, c.ledger.entries); }
    assert MessagesEvolve(a.messages, c.messages, a.nextId) by { MessagesTransitive(a.messages, b.messages, c.messages, a.nextId, b.nextId); }
    GrowsTransitive(a.conversations, b.conversations, c.conversations);
    GrowsTransitive(a.messageIndex, b.messageIndex, c.messageIndex);
    GrowsTransitive(a.replies, b.replies, c.replies);
    GrowsTransitive(a.replyIndex, b.replyIndex, c.replyIndex);
  }

  lemma EntriesTransitive(a: map<Id, Entry>, b: map<Id, Entry>, c: map<Id, Entry>)
    requires EntriesEvolve(a, b) && EntriesEvolve(b, c)
    ensures EntriesEvolve(a, c)
  {
  }

  lemma MessagesTransitive(a: map<Id, Message>, b: map<Id, Message>, c: map<Id, Message>, issuedA: Id, issuedB: Id)
    requires MessagesEvolve(a, b, issuedA) && MessagesEvolve(b, c, issuedB) && issuedA <= issuedB
    ensures MessagesEvolve(a, c, issuedA)
  {
  }

  lemma GrowsTransitive<K, V>(a: map<K, V>, b: map<K, V>, c: map<K, V>)
    requires Grows(a, b) && Grows(b, c)
    ensures Grows(a, c)
  {
  }

  /** Over any further run: settled entries, settled messages, stored answers and conversations never change again. */
  lemma {:induction false} SettledForever(w: World, actions: seq<Action>)
    requires WorldInv(w)
    ensures Evolves(w.store, Run(w, actions).store)
  {
    hide WorldInv, StoreInv, Evolves, Step;
    if actions == [] {
      NothingEvolves(w.store);
    } else {
      var before := actions[..|actions| - 1];
      SettledForever(w, before);
      RunKeeps(w, before);
      StepEvolves(Run(w, before), actions[|actions| - 1]);
      EvolvesTransitive(w.store, Run(w, before).store, Run(w, actions).store);
    }
  }

  /**
    A submission under a new key stores one pending row, in a conversation of its own tenant; under a known key it
    returns the stored row exactly when conversation, author and content are the same, and conflicts otherwise.
    */
  lemma SubmitsExactlyWhen(s: Store, key: Key, conversation: Id, author: Id, content: string)
    requires StoreInv(s)
    ensures var (s', r) := Submit(s, key, conversation, author, content);
      && (forall m | m in s.messages && s.messages[m].key == key ::
            var row := s.messages[m];
            && s' == s
            && r == if (row.conversation, row.author, row.content) == (conversation, author, content) then Submitted(m, true) else ReplayConflict)
      && ((forall m | m in s.messages :: s.messages[m].key != key) ==>
            if conversation in s.conversations && s.conversations[conversation].business == key.business then
              && r == Submitted(s.nextId, false)
              && s' == s.(messages := s.messages[s.nextId := Message(key, conversation, author, content, Pending, None, None, None, None, None)],
                          messageIndex := s.messageIndex[key := s.nextId], nextId := s.nextId + 1)
            else s' == s && r == ConversationNotFound)
  {
    hide MessagesSound, ConsumedHeld, ReleasedExplained, RepliesSound, IdsIssued, LedgerInv;
  }

  /** What was asked under a key never changes: after any further run only the same request is accepted again. */
  lemma {:induction false} ResubmitsExactlyWhen(w: World, actions: seq<Action>, m: Id, conversation: Id, author: Id, content: string)
    requires WorldInv(w) && m in w.store.messages
    ensures var (row, later) := (w.store.messages[m], Run(w, actions).store);
      Submit(later, row.key, conversation, author, content)
      == (later, if (row.conversation, row.author, row.content) == (conversation, author, content) then Submitted(m, true) else ReplayConflict)
  {
    hide WorldInv, StoreInv, Run, EntriesEvolve, MessageSound, MessagesSound, RepliesSound, Submit;
    var later := Run(w, actions);
    RunKeeps(w, actions);
    StoreInvOf(later);
    SettledForever(w, actions);
    SubmitsExactlyWhen(later.store, w.store.messages[m].key, conversation, author, content);
  }

  /** Repeating a settled request, after any further run, returns the same answer or the same failure and writes nothing. */
  lemma {:induction false} ReplayReturnsTheSame(w: World, actions: seq<Action>, c: Id, m: Id)
    requires WorldInv(w) && m in w.store.messages && w.store.messages[m].status != Pending
    requires PhaseOf(Run(w, actions), c).Idle?
    ensures var row := w.store.messages[m];
      var later := Run(w, actions);
      var again := Step(later, Begin(c, row.key, row.conversation, row.author, row.content));
      && again.store == later.store && again.calls == later.calls
      && (row.status == Completed ==> m in w.store.replyIndex && PhaseOf(again, c) == Done(Answered(w.store.replyIndex[m])))
      && (row.status == Failed ==> row.error.Some? && PhaseOf(again, c) == Done(Rejected(row.error.value)))
  {
    hide WorldInv, StoreInv, Run, EntriesEvolve, MessageSound, MessagesSound, RepliesSound;
    var later := Run(w, actions);
    RunKeeps(w, actions);
    StoreInvOf(w);
    StoreInvOf(later);
    SettledForever(w, actions);
    IndexedAt(w.store, m);
    CompletedHasReply(w.store, m);
    SettledRow(w.store, m);
    SettledRow(later.store, m);
  }

  lemma SettledRow(s: Store, m: Id)
    requires StoreInv(s) && m in s.messages
    ensures RowShape(s.messages[m])
    ensures s.messages[m].entry.Some? ==> Locked(s.ledger, s.messages[m].entry.value)
  {
    hide StoreInv;
    SoundAt(s, m);
    if s.messages[m].entry.Some? {
      EntrySoundAt(s, s.messages[m].entry.value);
    }
  }

  // ---------------------------------------------------------------- no integrity guard fires

  ghost predicate NoneEscaped(w: World) {
    forall c | c in w.clients :: w.clients[c] != Done(Escaped)
  }

  lemma StepNeverEscapes(w: World, a: Action)
    requires WorldInv(w) && NoneEscaped(w)
    ensures NoneEscaped(Step(w, a))
  {
    hide WorldInv, StoreInv, PhaseSound;
    match a
    case Begin(c, key, conversation, author, content) => BeginNeverEscapes(w, c, key, conversation, author, content);
    case TakeClaim(c) =>
      StoreInvOf(w);
      ClaimPhase(w, c);
    case TakeFail(c) =>
      if PhaseOf(w, c).Failing? {
        var Failing(message, entry, token, code) := PhaseOf(w, c);
        FailureRefundsOnce(w, c, message, entry, token, code);
      }
    case TakeComplete(c, accepted) => CompleteNeverEscapes(w, c, accepted);
    case _ =>
  }

  lemma BeginNeverEscapes(w: World, c: Id, key: Key, conversation: Id, author: Id, content: string)
    requires WorldInv(w) && NoneEscaped(w)
    ensures NoneEscaped(Step(w, Begin(c, key, conversation, author, content)))
  {
    hide WorldInv, StoreInv, Run;
    StoreInvOf(w);
    if key in w.store.messageIndex && w.store.messageIndex[key] in w.store.messages {
      SettledRow(w.store, w.store.messageIndex[key]);
      CompletedHasReply(w.store, w.store.messageIndex[key]);
    }
  }

  lemma ClaimPhase(w: World, c: Id)
    requires WorldInv(w)
    ensures PhaseOf(w, c).Claiming? ==>
      var Claiming(message, snapshot, now) := PhaseOf(w, c);
      Claim(w.store, message, snapshot, now, LeaseDuration(w.timeout)).1 != ClaimEscaped
  {
    hide StoreInv, PhasesSound, TokensApart, CallsCurrent, LeasesRecorded, ClaimsSeparated, Claim;
    PhaseSoundAt(w, c);
    if PhaseOf(w, c).Claiming? {
      var Claiming(message, snapshot, now) := PhaseOf(w, c);
      ClaimFacts(w.store, message, snapshot, now, LeaseDuration(w.timeout));
    }
  }

  lemma CompleteNeverEscapes(w: World, c: Id, accepted: bool)
    requires WorldInv(w) && NoneEscaped(w)
    ensures NoneEscaped(Step(w, TakeComplete(c, accepted)))
  {
    hide WorldInv, StoreInv;
    StoreInvOf(w);
    PhaseSoundAt(w, c);
    if PhaseOf(w, c).Completing? {
      EntrySoundAt(w.store, PhaseOf(w, c).entry);
    }
  }

  /** In no run does any request die on an integrity guard of its settling or replaying transactions. */
  lemma {:induction false} NoGuardFires(timeout: int, actions: seq<Action>)
    ensures NoneEscaped(Run(InitialWorld(timeout), actions))
  {
    hide WorldInv, Step, NoneEscaped;
    if actions == [] {
      assert NoneEscaped(InitialWorld(timeout)) by { NobodyEscaped(timeout); }
    } else {
      var before := actions[..|actions| - 1];
      NoGuardFires(timeout, before);
      Reachable(timeout, before);
      StepNeverEscapes(Run(InitialWorld(timeout), before), actions[|actions| - 1]);
    }
  }

  lemma NobodyEscaped(timeout: int)
    ensures NoneEscaped(InitialWorld(timeout))
  {
  }

  /**
    The integrity errors of a claim, which the request turns into a release and a failed message, arise exactly for
    conversations whose context cannot be rendered; no other guard of the claim ever fires.
    */
  lemma ClaimGuardExactlyWhen(w: World, c: Id)
    requires WorldInv(w) && PhaseOf(w, c).Claiming?
    ensures PhaseOf(Step(w, TakeClaim(c)), c).Releasing? <==> Ungrounded(w.store, PhaseOf(w, c).message)
  {
    hide WorldInv, StoreInv;
    StoreInvOf(w);
    PhaseSoundAt(w, c);
    var Claiming(m, snapshot, now) := PhaseOf(w, c);
    ClaimIntegrityExactlyWhen(w.store, m, snapshot, now, LeaseDuration(w.timeout));
    hide Claim, LeaseDuration;
  }

  lemma ClaimIntegrityExactlyWhen(s: Store, m: Id, snapshot: Snapshot, now: Time, lease: int)
    requires StoreInv(s) && Paired(s, m, snapshot.entry)
    requires snapshot.status != Reserved ==> s.ledger.entries[snapshot.entry].status == snapshot.status
    ensures Claim(s, m, snapshot, now, lease).1.ClaimIntegrity? <==> Ungrounded(s, m)
  {
    hide StoreInv, IdsIssued, RepliesSound, LedgerInv, LeaseActive;
    SoundAt(s, m);
    IndexedAt(s, m);
    EntryIndexedAt(s, snapshot.entry);
    CompletedHasReply(s, m);
    if s.messages[m].status == Pending && !Ungrounded(s, m) {
      UnreservedPending(s, m, snapshot.entry);
    }
    if s.messages[m].entry.Some? {
      EntryIndexedAt(s, s.messages[m].entry.value);
    }
  }

  /** The entry of a pending message's key is reserved, unless the conversation cannot be grounded. */
  lemma UnreservedPending(s: Store, m: Id, e: Id)
    requires StoreInv(s) && Paired(s, m, e) && s.messages[m].status == Pending && !Ungrounded(s, m)
    ensures s.ledger.entries[e].status == Reserved
  {
    hide IdsIssued, RepliesSound, LedgerInv;
    SoundAt(s, m);
    IndexedAt(s, m);
  }
}
