/** The lease check of a claim, when the session may still hold an older image of the message. */
module StaleClaims {
  import opened CreditModel
  import opened CreditLedger
  import opened Execution
  import opened ExecutionRuns
  import opened StrandedCredits

  /**
    The claim as the session sees it: every decision about the message reads `seen`, the image the session holds
    after the locked read; the columns assigned go to the current row.
    */
  function ClaimSeen(s: Store, message: Id, seen: Message, snapshot: Snapshot, now: Time, lease: int): (Store, ClaimResult) {
    if message !in s.messages || seen.conversation !in s.conversations then (s, ClaimIntegrity)
    else if !s.conversations[seen.conversation].grounded then (s, ClaimIntegrity)
    else
      match seen.status
      case Completed =>
        if message !in s.replyIndex then (s, ClaimIntegrity)
        else if !Locked(s.ledger, snapshot.entry) then (s, ClaimEscaped)
        else (s, ClaimCompleted(s.replyIndex[message]))
      case Failed =>
        if seen.error.None? then (s, ClaimIntegrity) else (s, ClaimFailed(seen.error.value))
      case Pending =>
        if snapshot.status != Reserved then (s, ClaimIntegrity)
        else if seen.entry.Some? && seen.entry.value != snapshot.entry then (s, ClaimIntegrity)
        else if LeaseActive(seen, now) then (s, ClaimInProgress)
        else
          (s.(messages := s.messages[message := s.messages[message].(
                entry := Some(snapshot.entry), token := Some(s.nextId), leaseUntil := Some(now + lease))],
              nextId := s.nextId + 1),
           Claimed(s.nextId))
  }

  /** With the committed row as the image this is the claim of the protocol. */
  lemma SeenIsCurrent(s: Store, message: Id, snapshot: Snapshot, now: Time, lease: int)
    requires message in s.messages
    ensures ClaimSeen(s, message, s.messages[message], snapshot, now, lease) == Claim(s, message, snapshot, now, lease)
  {
  }

  /** A claim that gets as far as the lease check leaves the holder its token exactly when its image shows a live lease. */
  lemma HolderKeptExactlyWhenSeen(s: Store, message: Id, seen: Message, snapshot: Snapshot, now: Time, lease: int)
    requires message in s.messages && s.messages[message].token.Some? && s.messages[message].token.value < s.nextId
    requires seen.conversation in s.conversations && s.conversations[seen.conversation].grounded
    requires seen.status == Pending && snapshot.status == Reserved
    requires seen.entry == None || seen.entry == Some(snapshot.entry)
    ensures ClaimSeen(s, message, seen, snapshot, now, lease).0.messages[message].token == s.messages[message].token
       <==> LeaseActive(seen, now)
  {
  }

  /** Client 2 submits, client 1 claims first, and client 2 arrives at its claim. */
  function OvertakingRun(key: Key): seq<Action> {
    [ NewConversation(Conversation(key.business, Chat, true)),
      Begin(1, key, 0, 7, "q"),
      Begin(2, key, 0, 7, "q"),
      TakeReserve(1, OFFER),
      TakeReserve(2, OFFER),
      TakeClaim(1) ]
  }

  function FirstImage(key: Key): Message {
    Message(key, 0, 7, "q", Pending, None, None, None, None, None)
  }

  /** What the two claims of client 2 do: with the committed row it waits, with its old image it evicts the holder. */
  ghost predicate Evicts(w: World, key: Key) {
    && PhaseOf(w, 1).Holding? && PhaseOf(w, 2).Claiming? && PhaseOf(w, 2).message == 1 && 1 in w.store.messages
    && w.store.messages[1].token == Some(PhaseOf(w, 1).token)
    && var Claiming(m, snapshot, now) := PhaseOf(w, 2);
      && LeaseActive(w.store.messages[1], now)
      && Claim(w.store, 1, snapshot, now, LeaseDuration(w.timeout)) == (w.store, ClaimInProgress)
      && var (s', r) := ClaimSeen(w.store, 1, FirstImage(key), snapshot, now, LeaseDuration(w.timeout));
         r.Claimed? && r.token != PhaseOf(w, 1).token && s'.messages[1].token == Some(r.token)
  }

  lemma OneMore(w: World, s: seq<Action>, n: nat)
    requires n < |s|
    ensures Run(w, s[..n + 1]) == Step(Run(w, s[..n]), s[n])
  {
    RunLast(w, s, n);
  }

  /**
    The refreshed read is necessary: in a reachable state a second client's claim, deciding on the image its session
    loaded when it submitted, takes the message from a holder whose lease is live.
    */
  lemma OldImageEvicts(timeout: int, key: Key)
    ensures Run(InitialWorld(timeout), OvertakingRun(key)[..3]).store.messages == map[1 := FirstImage(key)]
    ensures Evicts(Run(InitialWorld(timeout), OvertakingRun(key)), key)
  {
    var script, w0 := OvertakingRun(key), InitialWorld(timeout);
    var w1 := Step(w0, script[0]);
    var w2 := Step(w1, script[1]);
    var w3 := Step(w2, script[2]);
    assert PhaseOf(w3, 2) == Reserving(key, 1, 0) && PhaseOf(w3, 1) == Reserving(key, 1, 0);
    assert w3.store.messages == map[1 := FirstImage(key)] && w3.store.nextId == 2;
    SixSteps(w0, script);
    OvertakingTail(w3, key);
    assert script[..6] == script;
  }

  lemma SixSteps(w: World, s: seq<Action>)
    requires |s| == 6
    ensures Run(w, s[..3]) == Step(Step(Step(w, s[0]), s[1]), s[2])
    ensures Run(w, s[..6]) == Step(Step(Step(Run(w, s[..3]), s[3]), s[4]), s[5])
  {
    hide Step, Run;
    OneMore(w, s, 0);
    OneMore(w, s, 1);
    OneMore(w, s, 2);
    OneMore(w, s, 3);
    OneMore(w, s, 4);
    OneMore(w, s, 5);
    assert Run(w, s[..0]) == w by { RunNothing(w, s[..0]); }
  }

  lemma OvertakingTail(w: World, key: Key)
    requires PhaseOf(w, 1) == Reserving(key, 1, 0) && PhaseOf(w, 2) == Reserving(key, 1, 0)
    requires w.store.ledger == EMPTY_LEDGER && w.store.nextId == 2
    requires w.store.conversations == map[0 := Conversation(key.business, Chat, true)]
    requires w.store.messages == map[1 := FirstImage(key)]
    ensures Evicts(Step(Step(Step(w, TakeReserve(1, OFFER)), TakeReserve(2, OFFER)), TakeClaim(1)), key)
  {
    var w4 := Step(w, TakeReserve(1, OFFER));
    FirstGrant(key);
    AfterFirstReserve(w, w4, key);
    var w5 := Step(w4, TakeReserve(2, OFFER));
    AfterSecondReserve(w4, w5, key);
    ClaimsCollide(w5, key);
  }

  lemma AfterFirstReserve(w: World, w': World, key: Key)
    requires PhaseOf(w, 1) == Reserving(key, 1, 0) && PhaseOf(w, 2) == Reserving(key, 1, 0)
    requires w.store.ledger == EMPTY_LEDGER && w.store.nextId == 2 && w' == Step(w, TakeReserve(1, OFFER))
    ensures w'.store == w.store.(ledger := w'.store.ledger, nextId := 3)
    ensures PhaseOf(w', 2) == PhaseOf(w, 2) && w'.timeout == w.timeout
    ensures PhaseOf(w', 1).Claiming? && PhaseOf(w', 1).message == 1
    ensures PhaseOf(w', 1).snapshot.entry == 2 && PhaseOf(w', 1).snapshot.status == Reserved && PhaseOf(w', 1).now == 0
    ensures key in w'.store.ledger.entryIndex && w'.store.ledger.entryIndex[key] == 2 && Locked(w'.store.ledger, 2)
    ensures w'.store.ledger.entries[2].status == Reserved
  {
    FirstGrant(key);
    FirstLocked(key);
    hide Reserve, Locked;
  }

  lemma FirstLocked(key: Key)
    ensures Locked(Reserve(EMPTY_LEDGER, 2, key, OFFER, 0).0, 2)
  {
    hide EffectiveLimit, AccountOrNew;
    FirstLimit(OFFER.AccountOf(key.business));
    assert Reserve(EMPTY_LEDGER, 2, key, OFFER, 0) == Grant(EMPTY_LEDGER, 2, key, OFFER.AccountOf(key.business), Some(15), 0);
  }

  lemma AfterSecondReserve(w: World, w': World, key: Key)
    requires PhaseOf(w, 1).Claiming? && PhaseOf(w, 2) == Reserving(key, 1, 0)
    requires key in w.store.ledger.entryIndex && w.store.ledger.entryIndex[key] == 2 && Locked(w.store.ledger, 2)
    requires w.store.ledger.entries[2].status == Reserved && w' == Step(w, TakeReserve(2, OFFER))
    ensures w'.store == w.store && PhaseOf(w', 1) == PhaseOf(w, 1) && w'.timeout == w.timeout
    ensures PhaseOf(w', 2).Claiming? && PhaseOf(w', 2).message == 1
    ensures PhaseOf(w', 2).snapshot.entry == 2 && PhaseOf(w', 2).snapshot.status == Reserved && PhaseOf(w', 2).now == 0
  {
  }

  predicate AtClaim(w: World, c: Id) {
    && PhaseOf(w, c).Claiming? && PhaseOf(w, c).message == 1
    && PhaseOf(w, c).snapshot.entry == 2 && PhaseOf(w, c).snapshot.status == Reserved && PhaseOf(w, c).now == 0
  }

  lemma ClaimsCollide(w: World, key: Key)
    requires AtClaim(w, 1) && AtClaim(w, 2)
    requires w.store.conversations == map[0 := Conversation(key.business, Chat, true)]
    requires w.store.messages == map[1 := FirstImage(key)]
    ensures Evicts(Step(w, TakeClaim(1)), key)
  {
    assert LeaseDuration(w.timeout) > 0;
    var w' := Step(w, TakeClaim(1));
    assert PhaseOf(w', 2) == PhaseOf(w, 2);
    assert w'.store.messages[1] == FirstImage(key).(
      entry := Some(2), token := Some(w.store.nextId), leaseUntil := Some(LeaseDuration(w.timeout)));
    assert w'.store.nextId == w.store.nextId + 1;
  }
}
