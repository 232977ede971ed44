/** A pending request without a live lease is always finished by one uninterrupted re-execution. */
module Recoverability {
  import opened CreditModel
  import opened CreditLedger
  import LedgerLemmas
  import opened Execution
  import opened ExecutionLemmas
  import opened ExecutionRuns
  import opened RunLemmas
  import opened RunTheorems
  import opened RecoveryTheorems

  /** The key's message is completed or failed, and its entry, if there is one, consumed or released. */
  ghost predicate KeySettled(s: Store, m: Id) {
    && m in s.messages
    && s.messages[m].status != Pending
    && (forall e | e in s.ledger.entries && s.ledger.entries[e].key == s.messages[m].key :: s.ledger.entries[e].status != Reserved)
  }

  /** The transactions of one request, in the order of its program text; a step that is not due does nothing. */
  function CallScript(c: Id, response: Response, accepted: bool): seq<Action> {
    [StartCall(c), EndCall(c, response), TakeComplete(c, accepted), TakeFail(c)]
  }

  function RecoveryScript(c: Id, response: Response, accepted: bool): seq<Action> {
    [TakeRelease(c), TakeMark(c)] + CallScript(c, response, accepted)
  }

  function RequestScript(c: Id, row: Message, access: Access, response: Response, accepted: bool): seq<Action> {
    [Begin(c, row.key, row.conversation, row.author, row.content), TakeReserve(c, access), TakeDeny(c), TakeClaim(c)]
    + RecoveryScript(c, response, accepted)
  }

  lemma {:induction false} RunFirst(w: World, a: Action, rest: seq<Action>)
    ensures Run(w, [a] + rest) == Run(Step(w, a), rest)
  {
    hide Step;
    if rest == [] {
      assert [a] + rest == [a];
      assert Run(w, [a]) == Step(Run(w, []), a) by { assert [a][..0] == []; }
    } else {
      RunFirst(w, a, rest[..|rest| - 1]);
      assert ([a] + rest)[..|rest|] == [a] + rest[..|rest| - 1];
    }
  }

  /** How many of its own transactions a request can still take. */
  function Rank(p: Phase): nat {
    match p
    case Idle => 9
    case Reserving(_, _, _) => 8
    case Denying(_, _, _) => 1
    case Claiming(_, _, _) => 7
    case Releasing(_, _) => 6
    case Marking(_) => 5
    case Holding(_, _, _) => 4
    case Calling(_, _, _) => 3
    case Completing(_, _, _, _) => 2
    case Failing(_, _, _, _) => 1
    case Done(_) => 0
  }

  predicate OwnStep(a: Action, c: Id) {
    match a
    case Begin(d, _, _, _, _) => d == c
    case TakeReserve(d, _) => d == c
    case TakeDeny(d) => d == c
    case TakeClaim(d) => d == c
    case TakeRelease(d) => d == c
    case TakeMark(d) => d == c
    case StartCall(d) => d == c
    case EndCall(d, _) => d == c
    case TakeFail(d) => d == c
    case TakeComplete(d, _) => d == c
    case Crash(d) => d == c
    case _ => false
  }

  /** A request's own step either is not due and changes nothing, or brings the request closer to its end. */
  lemma OwnStepsDescend(w: World, a: Action, c: Id)
    requires OwnStep(a, c)
    ensures Step(w, a) == w || Rank(PhaseOf(Step(w, a), c)) < Rank(PhaseOf(w, c))
  {
  }

  lemma {:induction false} DoneIsFinal(w: World, actions: seq<Action>, c: Id)
    requires PhaseOf(w, c).Done? && (forall a | a in actions :: OwnStep(a, c))
    ensures Run(w, actions) == w
  {
    hide Step, OwnStep;
    if actions == [] {
    } else {
      var before := actions[..|actions| - 1];
      DoneIsFinal(w, before, c);
      OwnStepsDescend(w, actions[|actions| - 1], c);
    }
  }

  // ---------------------------------------------------------------- the end of a request, backwards

  lemma HeldMeansSettled(s: Store, m: Id, e: Id)
    requires StoreInv(s) && Paired(s, m, e) && s.messages[m].status != Pending && s.messages[m].entry == Some(e)
    ensures KeySettled(s, m)
  {
    hide StoreInv;
    SoundAt(s, m);
    forall f | f in s.ledger.entries && s.ledger.entries[f].key == s.messages[m].key ensures f == e {
      EntryIndexedAt(s, f);
      EntryIndexedAt(s, e);
    }
  }

  lemma FailEnds(w: World, c: Id, m: Id, e: Id, t: Id, code: ErrorCode)
    requires WorldInv(w) && PhaseOf(w, c) == Failing(m, e, t, code) && Current(w.store, m, t)
    ensures KeySettled(Step(w, TakeFail(c)).store, m) && PhaseOf(Step(w, TakeFail(c)), c).Done?
  {
    hide WorldInv, StoreInv, Step, KeySettled;
    var w' := Step(w, TakeFail(c));
    PhaseSoundAt(w, c);
    StoreInvOf(w);
    HolderEntry(w.store, m, e);
    FailureRefundsOnce(w, c, m, e, t, code);
    StepKeeps(w, TakeFail(c));
    StoreInvOf(w');
    StepEvolves(w, TakeFail(c));
    HeldMeansSettled(w'.store, m, e);
  }

  lemma CompleteEnds(w: World, c: Id, m: Id, e: Id, t: Id, text: string)
    requires WorldInv(w) && PhaseOf(w, c) == Completing(m, e, t, text) && Current(w.store, m, t)
    ensures KeySettled(Step(w, TakeComplete(c, true)).store, m) && PhaseOf(Step(w, TakeComplete(c, true)), c).Done?
  {
    hide WorldInv, StoreInv, Step, KeySettled;
    var w' := Step(w, TakeComplete(c, true));
    PhaseSoundAt(w, c);
    StoreInvOf(w);
    HolderEntry(w.store, m, e);
    CompletionChargesOnce(w, c, m, e, t, text, true);
    StepKeeps(w, TakeComplete(c, true));
    StoreInvOf(w');
    StepEvolves(w, TakeComplete(c, true));
    HeldMeansSettled(w'.store, m, e);
  }

  lemma RejectedCompletion(w: World, c: Id, m: Id, e: Id, t: Id, text: string)
    requires WorldInv(w) && PhaseOf(w, c) == Completing(m, e, t, text) && Current(w.store, m, t)
    ensures Step(w, TakeComplete(c, false)) == At(w, c, Failing(m, e, t, PersistenceFailure))
  {
    hide WorldInv, StoreInv;
    PhaseSoundAt(w, c);
    StoreInvOf(w);
    HolderEntry(w.store, m, e);
  }

  lemma SettleScript(w: World, c: Id, m: Id, e: Id, t: Id, accepted: bool)
    requires WorldInv(w) && Current(w.store, m, t)
    requires PhaseOf(w, c).Completing? || PhaseOf(w, c).Failing?
    requires PhaseOf(w, c).message == m && PhaseOf(w, c).entry == e && PhaseOf(w, c).token == t
    ensures var w' := Step(Step(w, TakeComplete(c, accepted)), TakeFail(c));
      KeySettled(w'.store, m) && PhaseOf(w', c).Done?
  {
    hide WorldInv, StoreInv, KeySettled;
    var w1 := Step(w, TakeComplete(c, accepted));
    if PhaseOf(w, c).Failing? {
      assert w1 == w;
      FailEnds(w, c, m, e, t, PhaseOf(w, c).code);
    } else if accepted {
      CompleteEnds(w, c, m, e, t, PhaseOf(w, c).text);
      assert Step(w1, TakeFail(c)) == w1;
    } else {
      RejectedCompletion(w, c, m, e, t, PhaseOf(w, c).text);
      StepKeeps(w, TakeComplete(c, accepted));
      FailEnds(w1, c, m, e, t, PersistenceFailure);
    }
  }

  lemma CallEnds(w: World, c: Id, m: Id, e: Id, t: Id, response: Response, accepted: bool)
    requires WorldInv(w) && PhaseOf(w, c) == Holding(m, e, t) && Current(w.store, m, t)
    ensures var w' := Run(w, CallScript(c, response, accepted)); KeySettled(w'.store, m) && PhaseOf(w', c).Done?
  {
    hide WorldInv, StoreInv, KeySettled, Run;
    var w1 := Step(w, StartCall(c));
    var w2 := Step(w1, EndCall(c, response));
    PhaseSoundAt(w, c);
    StepKeeps(w, StartCall(c));
    StepKeeps(w1, EndCall(c, response));
    SettleScript(w2, c, m, e, t, accepted);
    FourSteps(w, StartCall(c), EndCall(c, response), TakeComplete(c, accepted), TakeFail(c));
  }

  lemma FourSteps(w: World, a1: Action, a2: Action, a3: Action, a4: Action)
    ensures Run(w, [a1, a2, a3, a4]) == Step(Step(Step(Step(w, a1), a2), a3), a4)
  {
    hide Step;
    ScriptHead(w, a1, a2, [a3, a4]);
    ScriptHead(Step(Step(w, a1), a2), a3, a4, []);
    assert [a1, a2] + [a3, a4] == [a1, a2, a3, a4];
    assert [a3, a4] + [] == [a3, a4];
  }

  lemma IntegrityEnds(w: World, c: Id, m: Id, e: Id)
    requires WorldInv(w) && PhaseOf(w, c) == Releasing(m, e)
    ensures var w' := Step(Step(w, TakeRelease(c)), TakeMark(c)); KeySettled(w'.store, m) && PhaseOf(w', c).Done?
  {
    hide WorldInv, StoreInv, KeySettled, Evolves, Release;
    var w1 := Step(w, TakeRelease(c));
    var w2 := Step(w1, TakeMark(c));
    PhaseSoundAt(w, c);
    StoreInvOf(w);
    GroundlessEntry(w.store, m, e);
    ReleasedAlready(w.store, e, w.clock);
    StepKeeps(w, TakeRelease(c));
    StepKeeps(w1, TakeMark(c));
    StoreInvOf(w1);
    StoreInvOf(w2);
    GroundlessEntry(w1.store, m, e);
    OnlyEntry(w2.store, m, e);
  }

  /** A message of an ungrounded conversation never holds an entry, and its entry is never consumed. */
  lemma GroundlessEntry(s: Store, m: Id, e: Id)
    requires StoreInv(s) && Paired(s, m, e) && (Ungrounded(s, m) || s.ledger.entries[e].status == Released)
    ensures s.ledger.entries[e].status != Consumed
    ensures s.messages[m].status == Pending ==> s.messages[m].entry.None?
  {
    hide MessagesSound, RepliesSound, IdsIssued, LedgerInv;
    SoundAt(s, m);
    IndexedAt(s, m);
    EntryIndexedAt(s, e);
  }

  lemma ReleasedAlready(s: Store, e: Id, now: Time)
    requires StoreInv(s) && e in s.ledger.entries && s.ledger.entries[e].status != Consumed
    ensures var (s', r) := ReleaseCredit(s, e, ExecutionIntegrity, now);
      && r.Settlement? && e in s'.ledger.entries && s'.ledger.entries[e].status == Released
      && s'.ledger.entries[e].key == s.ledger.entries[e].key
      && s'.messages == s.messages && s'.conversations == s.conversations
  {
    hide MessagesSound, MessageIndexExact, ConsumedHeld, ReleasedExplained, RepliesSound, IdsIssued, IndexExact, WithinLimits, AdjustmentsChained;
    if s.ledger.entries[e].status == Reserved {
      LedgerLemmas.ReservedMeansCounted(s.ledger, e);
    }
  }

  lemma OnlyEntry(s: Store, m: Id, e: Id)
    requires StoreInv(s) && Paired(s, m, e) && s.ledger.entries[e].status != Reserved && s.messages[m].status != Pending
    ensures KeySettled(s, m)
  {
    hide StoreInv;
    forall f | f in s.ledger.entries && s.ledger.entries[f].key == s.messages[m].key ensures f == e {
      EntryIndexedAt(s, f);
      EntryIndexedAt(s, e);
    }
  }

  lemma ClaimEnds(w: World, c: Id, m: Id, snapshot: Snapshot, now: Time, response: Response, accepted: bool)
    requires WorldInv(w) && PhaseOf(w, c) == Claiming(m, snapshot, now)
    requires w.store.messages[m].status == Pending && !LeaseActive(w.store.messages[m], now)
    ensures var w' := Run(Step(w, TakeClaim(c)), RecoveryScript(c, response, accepted));
      KeySettled(w'.store, m) && PhaseOf(w', c).Done?
  {
    hide WorldInv, StoreInv, KeySettled, Run, CallScript;
    var w1 := Step(w, TakeClaim(c));
    var w2 := Step(w1, TakeRelease(c));
    var w3 := Step(w2, TakeMark(c));
    StoreInvOf(w);
    PhaseSoundAt(w, c);
    StepKeeps(w, TakeClaim(c));
    ScriptHead(w1, TakeRelease(c), TakeMark(c), CallScript(c, response, accepted));
    var r := Claim(w.store, m, snapshot, now, LeaseDuration(w.timeout)).1;
    if r.Claimed? {
      assert w3 == w1;
      CallEnds(w1, c, m, snapshot.entry, r.token, response, accepted);
    } else {
      assert r.ClaimIntegrity?;
      IntegrityEnds(w1, c, m, snapshot.entry);
      CallScriptIsOwn(c, response, accepted);
      DoneIsFinal(w3, CallScript(c, response, accepted), c);
    }
  }

  lemma ScriptHead(w: World, a: Action, b: Action, rest: seq<Action>)
    ensures Run(w, [a, b] + rest) == Run(Step(Step(w, a), b), rest)
  {
    hide Step, Run;
    RunFirst(w, a, [b] + rest);
    RunFirst(Step(w, a), b, rest);
    assert [a, b] + rest == [a] + ([b] + rest);
  }

  lemma CallScriptIsOwn(c: Id, response: Response, accepted: bool)
    ensures forall a | a in CallScript(c, response, accepted) :: OwnStep(a, c)
    ensures forall a | a in RecoveryScript(c, response, accepted) :: OwnStep(a, c)
  {
  }

  /** A refused reservation means the key has no entry at all. */
  lemma RefusedMeansNoEntry(s: Store, m: Id, access: Access, now: Time)
    requires StoreInv(s) && m in s.messages && ReserveCredit(s, s.messages[m].key, access, now).1.Refused?
    ensures ReserveCredit(s, s.messages[m].key, access, now).0 == s
    ensures forall e | e in s.ledger.entries :: s.ledger.entries[e].key != s.messages[m].key
    ensures s.messages[m].entry.None?
  {
    hide MessagesSound, MessageIndexExact, ConsumedHeld, ReleasedExplained, RepliesSound, IdsIssued, CountersExact, WithinLimits, AdjustmentsChained;
    SoundAt(s, m);
  }

  lemma ReserveEnds(w: World, c: Id, m: Id, access: Access, now: Time, response: Response, accepted: bool)
    requires WorldInv(w) && m in w.store.messages && PhaseOf(w, c) == Reserving(w.store.messages[m].key, m, now)
    requires w.store.messages[m].status == Pending && !LeaseActive(w.store.messages[m], now)
    ensures var w' := Run(Step(Step(Step(w, TakeReserve(c, access)), TakeDeny(c)), TakeClaim(c)), RecoveryScript(c, response, accepted));
      KeySettled(w'.store, m) && PhaseOf(w', c).Done?
  {
    hide WorldInv, StoreInv, Run, RecoveryScript;
    StoreInvOf(w);
    var w1 := Step(w, TakeReserve(c, access));
    var w2 := Step(w1, TakeDeny(c));
    StepKeeps(w, TakeReserve(c, access));
    ReserveFacts(w.store, w.store.messages[m].key, access, now);
    if PhaseOf(w1, c).Claiming? {
      assert w2 == w1;
      ClaimEnds(w1, c, m, PhaseOf(w1, c).snapshot, now, response, accepted);
    } else {
      RefusedMeansNoEntry(w.store, m, access, now);
      assert KeySettled(w2.store, m);
      assert Step(w2, TakeClaim(c)) == w2;
      CallScriptIsOwn(c, response, accepted);
      DoneIsFinal(w2, RecoveryScript(c, response, accepted), c);
    }
  }

  lemma RequestUnrolled(w: World, c: Id, row: Message, access: Access, response: Response, accepted: bool)
    ensures var begun := Step(w, Begin(c, row.key, row.conversation, row.author, row.content));
      var rest := [TakeReserve(c, access), TakeDeny(c), TakeClaim(c)] + RecoveryScript(c, response, accepted);
      && Run(w, RequestScript(c, row, access, response, accepted)) == Run(begun, rest)
      && Run(begun, rest) == Run(Step(Step(Step(begun, TakeReserve(c, access)), TakeDeny(c)), TakeClaim(c)), RecoveryScript(c, response, accepted))
      && (forall a | a in rest :: OwnStep(a, c))
  {
    hide Step, Run, RecoveryScript;
    var begin := Begin(c, row.key, row.conversation, row.author, row.content);
    var begun := Step(w, begin);
    var script := RecoveryScript(c, response, accepted);
    var rest := [TakeReserve(c, access), TakeDeny(c), TakeClaim(c)] + script;
    CallScriptIsOwn(c, response, accepted);
    RunFirst(w, begin, rest);
    assert RequestScript(c, row, access, response, accepted) == [begin] + rest;
    ScriptHead(begun, TakeReserve(c, access), TakeDeny(c), [TakeClaim(c)] + script);
    RunFirst(Step(Step(begun, TakeReserve(c, access)), TakeDeny(c)), TakeClaim(c), script);
    assert rest == [TakeReserve(c, access), TakeDeny(c)] + ([TakeClaim(c)] + script);
  }

  /** The submission will be accepted, and its message is or will be pending without a live lease. */
  predicate Finishable(s: Store, row: Message, now: Time) {
    if row.key in s.messageIndex && s.messageIndex[row.key] in s.messages then
      var m := s.messages[s.messageIndex[row.key]];
      && m.conversation == row.conversation && m.author == row.author && m.content == row.content
      && m.status == Pending && !LeaseActive(m, now)
    else
      row.conversation in s.conversations && s.conversations[row.conversation].business == row.key.business
  }

  lemma BegunReserving(w: World, c: Id, row: Message)
    requires WorldInv(w) && PhaseOf(w, c).Idle? && Finishable(w.store, row, w.clock)
    ensures var w1 := Step(w, Begin(c, row.key, row.conversation, row.author, row.content));
      && row.key in w1.store.messageIndex
      && var m := w1.store.messageIndex[row.key];
      && m in w1.store.messages && w1.store.messages[m].key == row.key && PhaseOf(w1, c) == Reserving(row.key, m, w.clock)
      && w1.store.messages[m].status == Pending && !LeaseActive(w1.store.messages[m], w.clock)
  {
    hide WorldInv, StoreInv;
    StoreInvOf(w);
    if row.key in w.store.messageIndex {
      MessageIndexed(w.store, row.key);
    }
  }

  lemma MessageIndexed(s: Store, key: Key)
    requires StoreInv(s) && key in s.messageIndex
    ensures s.messageIndex[key] in s.messages && s.messages[s.messageIndex[key]].key == key
  {
  }

  /**
    Uninterrupted, a request whose submission is accepted settles its key: new, or found pending without a live
    lease, whatever the subscription service, the provider and the database answer.
    */
  lemma RequestSettles(w: World, c: Id, row: Message, access: Access, response: Response, accepted: bool)
    requires WorldInv(w) && PhaseOf(w, c).Idle? && Finishable(w.store, row, w.clock)
    ensures var w' := Run(w, RequestScript(c, row, access, response, accepted));
      && row.key in w'.store.messageIndex && KeySettled(w'.store, w'.store.messageIndex[row.key]) && PhaseOf(w', c).Done?
  {
    hide WorldInv, StoreInv, KeySettled, Run, RecoveryScript, Finishable, Step;
    var begin := Begin(c, row.key, row.conversation, row.author, row.content);
    var w1 := Step(w, begin);
    StepKeeps(w, begin);
    BegunReserving(w, c, row);
    var m := w1.store.messageIndex[row.key];
    ReserveEnds(w1, c, m, access, w.clock, response, accepted);
    var rest := [TakeReserve(c, access), TakeDeny(c), TakeClaim(c)] + RecoveryScript(c, response, accepted);
    RequestUnrolled(w, c, row, access, response, accepted);
    SettledForever(w1, rest);
    IndexStays(w1.store, Run(w1, rest).store, row.key);
  }

  lemma IndexStays(s: Store, s': Store, key: Key)
    requires Evolves(s, s') && key in s.messageIndex
    ensures key in s'.messageIndex && s'.messageIndex[key] == s.messageIndex[key]
  {
  }

  /**
    From every reachable state, one uninterrupted re-execution finishes a pending request whose lease is
    absent or expired, whatever the subscription service, the provider and the database answer.
    */
  lemma {:induction false} OneRetrySettles(timeout: int, actions: seq<Action>, c: Id, m: Id, access: Access, response: Response, accepted: bool)
    requires var w := Run(InitialWorld(timeout), actions);
      && PhaseOf(w, c).Idle? && m in w.store.messages
      && w.store.messages[m].status == Pending && !LeaseActive(w.store.messages[m], w.clock)
    ensures var w := Run(InitialWorld(timeout), actions);
      var w' := Run(w, RequestScript(c, w.store.messages[m], access, response, accepted));
      KeySettled(w'.store, m) && PhaseOf(w', c).Done?
  {
    hide WorldInv, StoreInv, KeySettled, Run, InitialWorld, RequestScript;
    Reachable(timeout, actions);
    var w := Run(InitialWorld(timeout), actions);
    var row := w.store.messages[m];
    StoreInvOf(w);
    IndexedAt(w.store, m);
    RequestSettles(w, c, row, access, response, accepted);
    SettledForever(w, RequestScript(c, row, access, response, accepted));
    IndexStays(w.store, Run(w, RequestScript(c, row, access, response, accepted)).store, row.key);
  }
}
