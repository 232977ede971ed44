/** A failed message can leave its key's credit reserved: exactly when, and for how long. */
module StrandedCredits {
  import opened CreditModel
  import opened CreditLedger
  import opened Execution
  import opened ExecutionLemmas
  import opened ExecutionRuns
  import opened RunLemmas
  import opened RunTheorems
  import opened RecoveryTheorems

  /** The key's message has failed, yet the key's entry is still reserved. */
  predicate Stranded(s: Store, key: Key) {
    && key in s.messageIndex && s.messageIndex[key] in s.messages
    && s.messages[s.messageIndex[key]].status == Failed
    && HasReserved(s, key)
  }

  predicate HasReserved(s: Store, key: Key) {
    && key in s.ledger.entryIndex && s.ledger.entryIndex[key] in s.ledger.entries
    && s.ledger.entries[s.ledger.entryIndex[key]].status == Reserved
  }

  /** The message of a key that a failure marking would still turn into FAILED. */
  predicate Markable(s: Store, message: Id, key: Key) {
    && message in s.messages && s.messages[message].key == key
    && s.messages[message].status == Pending && s.messages[message].entry.None?
  }

  /** The guard of a new reservation: access, an account that exists or may be inserted, and a free unit. */
  predicate CanReserve(l: Ledger, key: Key, access: Access) {
    && access.Granted?
    && var account := access.AccountOf(key.business);
    && (account in l.accounts || InsertableAccount(account, access.base))
    && var limit := EffectiveLimit(l.adjustments, account, access.base);
    && (limit.None? || (limit.value >= 0 && AccountOrNew(l, account, access.base).Used() < limit.value))
  }

  /**
    The two steps that strand a credit: marking a refused request's message while its key's credit is reserved, and
    reserving for a message that is already marked.
    */
  predicate Strands(w: World, a: Action, key: Key) {
    match a
    case TakeDeny(c) =>
      PhaseOf(w, c).Denying? && Markable(w.store, PhaseOf(w, c).message, key) && HasReserved(w.store, key)
    case TakeReserve(c, access) =>
      && PhaseOf(w, c).Reserving? && PhaseOf(w, c).key == key
      && key in w.store.messageIndex && w.store.messageIndex[key] in w.store.messages
      && w.store.messages[w.store.messageIndex[key]].status == Failed
      && key !in w.store.ledger.entryIndex
      && CanReserve(w.store.ledger, key, access)
    case _ => false
  }

  lemma ReservesExactlyWhen(l: Ledger, id: Id, key: Key, access: Access, now: Time)
    requires key !in l.entryIndex
    ensures Reserve(l, id, key, access, now).1.Reservation? <==> CanReserve(l, key, access)
  {
    hide EffectiveLimit;
  }

  lemma MarkStrandsIff(s: Store, message: Id, code: ErrorCode, now: Time, key: Key)
    requires StoreInv(s) && !Stranded(s, key)
    ensures Stranded(MarkFailed(s, message, code, now), key) <==> Markable(s, message, key) && HasReserved(s, key)
  {
    hide MessagesSound, ConsumedHeld, ReleasedExplained, RepliesSound, IdsIssued, LedgerInv;
    if message in s.messages {
      IndexedAt(s, message);
    }
  }

  lemma ReserveWrites(s: Store, key: Key, access: Access, now: Time)
    ensures var s' := ReserveCredit(s, key, access, now).0;
      && s'.messages == s.messages && s'.messageIndex == s.messageIndex
      && if key !in s.ledger.entryIndex && CanReserve(s.ledger, key, access)
         then s'.ledger.entryIndex == s.ledger.entryIndex[key := s.nextId]
              && s.nextId in s'.ledger.entries && s'.ledger.entries[s.nextId].status == Reserved
              && s'.ledger.entries == s.ledger.entries[s.nextId := s'.ledger.entries[s.nextId]]
         else s'.ledger.entryIndex == s.ledger.entryIndex && s'.ledger.entries == s.ledger.entries
  {
    hide CanReserve, EffectiveLimit, AccountOrNew, InsertableAccount;
    if key !in s.ledger.entryIndex {
      ReservesExactlyWhen(s.ledger, s.nextId, key, access, now);
    }
  }

  lemma ReserveStrandsIff(s: Store, key: Key, other: Key, access: Access, now: Time)
    requires StoreInv(s) && !Stranded(s, key)
    ensures Stranded(ReserveCredit(s, other, access, now).0, key) <==>
      && other == key && key in s.messageIndex && s.messageIndex[key] in s.messages
      && s.messages[s.messageIndex[key]].status == Failed
      && key !in s.ledger.entryIndex && CanReserve(s.ledger, key, access)
  {
    hide StoreInv, CanReserve, ReserveCredit;
    EntryFresh(s);
    ReserveWrites(s, other, access, now);
    if key in s.ledger.entryIndex {
      KeyIndexed(s, key);
    }
  }

  lemma EntryFresh(s: Store)
    requires StoreInv(s)
    ensures s.nextId !in s.ledger.entries
  {
  }

  lemma KeyIndexed(s: Store, key: Key)
    requires StoreInv(s) && key in s.ledger.entryIndex
    ensures s.ledger.entryIndex[key] in s.ledger.entries && s.ledger.entries[s.ledger.entryIndex[key]].key == key
  {
  }

  /** A settled or merely claimed row cannot strand: the status of the message and of its entry move together. */
  lemma SettleNeverStrands(s: Store, s': Store, key: Key, m: Id, e: Id)
    requires StoreInv(s) && !Stranded(s, key) && Paired(s, m, e)
    requires s'.messageIndex == s.messageIndex && s'.ledger.entryIndex == s.ledger.entryIndex
    requires m in s'.messages && s'.messages == s.messages[m := s'.messages[m]]
    requires e in s'.ledger.entries && s'.ledger.entries == s.ledger.entries[e := s'.ledger.entries[e]]
    requires s'.ledger.entries[e].status != Reserved
    ensures !Stranded(s', key)
  {
    hide MessagesSound, ConsumedHeld, ReleasedExplained, RepliesSound, IdsIssued, CountersExact, EntriesSound, WithinLimits, AdjustmentsChained;
    IndexedAt(s, m);
    EntryIndexedAt(s, e);
  }

  lemma ReleaseNeverStrands(s: Store, key: Key, e: Id, code: ErrorCode, now: Time)
    requires !Stranded(s, key)
    ensures !Stranded(ReleaseCredit(s, e, code, now).0, key)
  {
  }

  lemma ClaimNeverStrands(s: Store, key: Key, message: Id, snapshot: Snapshot, now: Time, lease: int)
    requires !Stranded(s, key)
    ensures !Stranded(Claim(s, message, snapshot, now, lease).0, key)
  {
  }

  lemma SubmitNeverStrands(s: Store, key: Key, other: Key, conversation: Id, author: Id, content: string)
    requires StoreInv(s) && !Stranded(s, key)
    ensures !Stranded(Submit(s, other, conversation, author, content).0, key)
  {
    hide MessagesSound, ConsumedHeld, ReleasedExplained, RepliesSound, LedgerInv;
  }

  /** The exact condition: a step strands the key's credit if and only if it is one of the two named steps. */
  lemma StrandsExactlyWhen(w: World, a: Action, key: Key)
    requires WorldInv(w) && !Stranded(w.store, key)
    ensures Stranded(Step(w, a).store, key) <==> Strands(w, a, key)
  {
    hide WorldInv, StoreInv, Stranded, Markable, HasReserved, CanReserve, MarkFailed, ReserveCredit, ReleaseCredit, Claim, Submit, FailClaim, CompleteClaim, Adjust;
    StoreInvOf(w);
    match a
    case Begin(c, other, conversation, author, content) => SubmitNeverStrands(w.store, key, other, conversation, author, content);
    case TakeReserve(c, access) =>
      if PhaseOf(w, c).Reserving? { ReserveStrandsIff(w.store, key, PhaseOf(w, c).key, access, PhaseOf(w, c).now); }
    case TakeDeny(c) =>
      if PhaseOf(w, c).Denying? { MarkStrandsIff(w.store, PhaseOf(w, c).message, PhaseOf(w, c).code, PhaseOf(w, c).now, key); }
    case TakeMark(c) => MarkStepNeverStrands(w, c, key);
    case TakeClaim(c) =>
      if PhaseOf(w, c).Claiming? {
        ClaimNeverStrands(w.store, key, PhaseOf(w, c).message, PhaseOf(w, c).snapshot, PhaseOf(w, c).now, LeaseDuration(w.timeout));
      }
    case TakeRelease(c) =>
      if PhaseOf(w, c).Releasing? { ReleaseNeverStrands(w.store, key, PhaseOf(w, c).entry, ExecutionIntegrity, w.clock); }
    case TakeFail(c) => FailStepNeverStrands(w, c, key);
    case TakeComplete(c, accepted) => CompleteStepNeverStrands(w, c, accepted, key);
    case AdjustCredit(actorValid, businessKnown, adjustmentKey, delta, reason, access) =>
      AdjustNeverStrands(w.store, key, actorValid, businessKnown, adjustmentKey, delta, reason, access);
    case NewConversation(conversation) => OpenNeverStrands(w.store, key, conversation);
    case _ =>
  }

  /** A request that marks after giving its credit back finds its key's entry no longer reserved. */
  lemma MarkStepNeverStrands(w: World, c: Id, key: Key)
    requires WorldInv(w) && !Stranded(w.store, key)
    ensures !Stranded(Step(w, TakeMark(c)).store, key)
  {
    hide WorldInv, StoreInv, Stranded, MarkFailed, HasReserved;
    StoreInvOf(w);
    PhaseSoundAt(w, c);
    if PhaseOf(w, c).Marking? {
      var m := PhaseOf(w, c).message;
      MarkStrandsIff(w.store, m, ExecutionIntegrity, w.clock, key);
      var e :| e in w.store.ledger.entries && w.store.ledger.entries[e].key == w.store.messages[m].key
        && w.store.ledger.entries[e].status != Reserved;
      EntryIndexedAt(w.store, e);
      NotReserved(w.store, w.store.messages[m].key, e);
    }
  }

  lemma NotReserved(s: Store, key: Key, e: Id)
    requires key in s.ledger.entryIndex && s.ledger.entryIndex[key] == e
    requires e in s.ledger.entries && s.ledger.entries[e].status != Reserved
    ensures !HasReserved(s, key)
  {
  }

  lemma AdjustNeverStrands(s: Store, key: Key, actorValid: bool, businessKnown: bool, other: Key, delta: int, reason: AdjustmentReason, access: Access)
    requires !Stranded(s, key)
    ensures !Stranded(s.(ledger := Adjust(s.ledger, actorValid, businessKnown, other, delta, reason, access).0), key)
  {
  }

  lemma OpenNeverStrands(s: Store, key: Key, conversation: Conversation)
    requires !Stranded(s, key)
    ensures !Stranded(OpenConversation(s, conversation), key)
  {
  }

  lemma FailStepNeverStrands(w: World, c: Id, key: Key)
    requires WorldInv(w) && !Stranded(w.store, key)
    ensures !Stranded(Step(w, TakeFail(c)).store, key)
  {
    hide WorldInv, StoreInv, Stranded;
    StoreInvOf(w);
    PhaseSoundAt(w, c);
    if PhaseOf(w, c).Failing? {
      var Failing(m, e, t, code) := PhaseOf(w, c);
      FailureRefundsOnce(w, c, m, e, t, code);
      if Current(w.store, m, t) {
        SettleNeverStrands(w.store, Step(w, TakeFail(c)).store, key, m, e);
      }
    }
  }

  lemma CompleteStepNeverStrands(w: World, c: Id, accepted: bool, key: Key)
    requires WorldInv(w) && !Stranded(w.store, key)
    ensures !Stranded(Step(w, TakeComplete(c, accepted)).store, key)
  {
    hide WorldInv, StoreInv, Stranded;
    StoreInvOf(w);
    PhaseSoundAt(w, c);
    if PhaseOf(w, c).Completing? {
      var Completing(m, e, t, text) := PhaseOf(w, c);
      CompletionChargesOnce(w, c, m, e, t, text, accepted);
      if Current(w.store, m, t) && accepted {
        SettleNeverStrands(w.store, Step(w, TakeComplete(c, accepted)).store, key, m, e);
      }
    }
  }

  // ---------------------------------------------------------------- the second request

  function Before(timeout: int, actions: seq<Action>, k: nat): World
    requires k <= |actions|
  {
    Run(InitialWorld(timeout), actions[..k])
  }

  /** At this step of the run the request d reserved for the key and went on to its claim. */
  ghost predicate ReservedBy(timeout: int, actions: seq<Action>, k: nat, d: Id, key: Key)
    requires k < |actions|
  {
    && actions[k].TakeReserve? && actions[k].client == d
    && PhaseOf(Before(timeout, actions, k), d).Reserving? && PhaseOf(Before(timeout, actions, k), d).key == key
    && PhaseOf(Before(timeout, actions, k + 1), d).Claiming?
  }

  /** At this step of the run the refused request d marked the message. */
  ghost predicate DeniedBy(timeout: int, actions: seq<Action>, k: nat, d: Id, message: Id)
    requires k < |actions|
  {
    actions[k] == TakeDeny(d) && PhaseOf(Before(timeout, actions, k), d).Denying?
    && PhaseOf(Before(timeout, actions, k), d).message == message
  }

  /** Past its reservation a request neither reserves nor is denied any more. */
  predicate PastReserve(p: Phase) { !p.Idle? && !p.Reserving? && !p.Denying? }

  lemma StaysPast(w: World, a: Action, d: Id)
    ensures PastReserve(PhaseOf(w, d)) ==> PastReserve(PhaseOf(Step(w, a), d))
    ensures PhaseOf(w, d).Done? ==> PhaseOf(Step(w, a), d).Done?
  {
  }

  lemma BeforeNext(timeout: int, actions: seq<Action>, k: nat)
    requires k < |actions|
    ensures Before(timeout, actions, k + 1) == Step(Before(timeout, actions, k), actions[k])
  {
    RunLast(InitialWorld(timeout), actions, k);
  }

  lemma {:induction false} PastFromThere(timeout: int, actions: seq<Action>, k: nat, n: nat, d: Id)
    requires k <= n <= |actions|
    ensures PastReserve(PhaseOf(Before(timeout, actions, k), d)) ==> PastReserve(PhaseOf(Before(timeout, actions, n), d))
    ensures PhaseOf(Before(timeout, actions, k), d).Done? ==> PhaseOf(Before(timeout, actions, n), d).Done?
  {
    hide Step, Before, PastReserve;
    if k < n {
      PastFromThere(timeout, actions, k, n - 1, d);
      BeforeNext(timeout, actions, n - 1);
      StaysPast(Before(timeout, actions, n - 1), actions[n - 1], d);
    }
  }

  lemma IndexGrowsByReserve(w: World, a: Action, key: Key)
    requires key in Step(w, a).store.ledger.entryIndex && key !in w.store.ledger.entryIndex
    ensures a.TakeReserve? && PhaseOf(w, a.client).Reserving? && PhaseOf(w, a.client).key == key
    ensures PhaseOf(Step(w, a), a.client).Claiming?
  {
    hide EffectiveLimit, AccountOrNew;
  }

  /** An entry in the table was reserved by a request that has left its reservation behind. */
  lemma {:induction false} SomeoneReserved(timeout: int, actions: seq<Action>, n: nat, key: Key) returns (k: nat, d: Id)
    requires n <= |actions| && key in Before(timeout, actions, n).store.ledger.entryIndex
    ensures k < n && ReservedBy(timeout, actions, k, d, key)
  {
    hide Step, WorldInv;
    if n == 0 {
      assert false;
    } else if key in Before(timeout, actions, n - 1).store.ledger.entryIndex {
      k, d := SomeoneReserved(timeout, actions, n - 1, key);
    } else {
      BeforeNext(timeout, actions, n - 1);
      IndexGrowsByReserve(Before(timeout, actions, n - 1), actions[n - 1], key);
      k, d := n - 1, actions[n - 1].client;
    }
  }

  /** A message without an entry for its key can only have failed by the marking of a refused request. */
  lemma FailsByDenial(w: World, a: Action, m: Id, key: Key)
    requires WorldInv(w) && m in Step(w, a).store.messages && Step(w, a).store.messages[m].status == Failed
    requires Step(w, a).store.messages[m].key == key && key !in Step(w, a).store.ledger.entryIndex
    requires !(m in w.store.messages && w.store.messages[m].status == Failed && w.store.messages[m].key == key)
    ensures a.TakeDeny? && PhaseOf(w, a.client).Denying? && PhaseOf(w, a.client).message == m
  {
    hide WorldInv, StoreInv, Reserve, Adjust, EffectiveLimit, CompleteClaim, FailClaim, Release;
    StoreInvOf(w);
    match a
    case TakeMark(c) =>
      PhaseSoundAt(w, c);
      if PhaseOf(w, c).Marking? && PhaseOf(w, c).message == m {
        var e :| e in w.store.ledger.entries && w.store.ledger.entries[e].key == w.store.messages[m].key;
        EntryIndexedAt(w.store, e);
      }
    case TakeFail(c) =>
      PhaseSoundAt(w, c);
      if PhaseOf(w, c).Failing? {
        EntryIndexedAt(w.store, PhaseOf(w, c).entry);
        FailLeavesIndex(w.store, PhaseOf(w, c).message, PhaseOf(w, c).entry, PhaseOf(w, c).token, PhaseOf(w, c).code, w.clock);
      }
    case TakeComplete(c, accepted) =>
      if PhaseOf(w, c).Completing? {
        CompleteFailsNothing(w.store, PhaseOf(w, c).message, PhaseOf(w, c).entry, PhaseOf(w, c).token, PhaseOf(w, c).text, accepted, w.clock);
      }
    case _ =>
  }

  lemma FailLeavesIndex(s: Store, message: Id, entry: Id, token: Id, code: ErrorCode, now: Time)
    ensures var s' := FailClaim(s, message, entry, token, code, now).0;
      && s'.ledger.entryIndex == s.ledger.entryIndex
      && (message in s.messages ==> message in s'.messages && s'.messages[message].key == s.messages[message].key)
      && forall m | m != message :: (m in s'.messages <==> m in s.messages) && (m in s.messages ==> s'.messages[m] == s.messages[m])
  {
  }

  lemma CompleteFailsNothing(s: Store, message: Id, entry: Id, token: Id, text: string, accepted: bool, now: Time)
    ensures var s' := CompleteClaim(s, message, entry, token, text, accepted, now).0;
      forall m | m in s'.messages && s'.messages[m].status == Failed :: m in s.messages && s.messages[m] == s'.messages[m]
  {
  }

  lemma {:induction false} SomeoneDenied(timeout: int, actions: seq<Action>, n: nat, m: Id, key: Key) returns (k: nat, d: Id)
    requires n <= |actions|
    requires var s := Before(timeout, actions, n).store;
      m in s.messages && s.messages[m].status == Failed && s.messages[m].key == key && key !in s.ledger.entryIndex
    ensures k < n && DeniedBy(timeout, actions, k, d, m)
  {
    hide Step, WorldInv;
    if n == 0 {
      assert false;
    } else {
      var w := Before(timeout, actions, n - 1);
      BeforeNext(timeout, actions, n - 1);
      Reachable(timeout, actions[..n - 1]);
      IndexOnlyGrows(w, actions[n - 1], key);
      if m in w.store.messages && w.store.messages[m].status == Failed && w.store.messages[m].key == key {
        k, d := SomeoneDenied(timeout, actions, n - 1, m, key);
      } else {
        FailsByDenial(w, actions[n - 1], m, key);
        k, d := n - 1, actions[n - 1].client;
      }
    }
  }

  lemma IndexOnlyGrows(w: World, a: Action, key: Key)
    ensures key in w.store.ledger.entryIndex ==> key in Step(w, a).store.ledger.entryIndex
  {
    hide EffectiveLimit;
  }

  /**
    It takes two requests: whoever's step strands a key's credit in a run, another request had reserved for the key
    before, or had marked its message.
    */
  lemma {:induction false} SecondRequest(timeout: int, actions: seq<Action>, a: Action, key: Key) returns (k: nat, d: Id)
    requires Strands(Run(InitialWorld(timeout), actions), a, key)
    ensures k < |actions| && d != a.client
    ensures if a.TakeDeny? then ReservedBy(timeout, actions, k, d, key)
            else DeniedBy(timeout, actions, k, d, Run(InitialWorld(timeout), actions).store.messageIndex[key])
  {
    hide Step, WorldInv, CanReserve, StoreInv;
    var n := |actions|;
    var w := Run(InitialWorld(timeout), actions);
    assert actions[..n] == actions;
    Reachable(timeout, actions);
    StoreInvOf(w);
    if a.TakeDeny? {
      k, d := SomeoneReserved(timeout, actions, n, key);
      PastFromThere(timeout, actions, k + 1, n, d);
    } else {
      var m := w.store.messageIndex[key];
      MessageOfKey(w.store, key);
      k, d := SomeoneDenied(timeout, actions, n, m, key);
      BeforeNext(timeout, actions, k);
      DenyEnds(Before(timeout, actions, k), d);
      PastFromThere(timeout, actions, k + 1, n, d);
    }
  }

  lemma MessageOfKey(s: Store, key: Key)
    requires StoreInv(s) && key in s.messageIndex
    ensures s.messageIndex[key] in s.messages && s.messages[s.messageIndex[key]].key == key
  {
  }

  lemma DenyEnds(w: World, d: Id)
    requires PhaseOf(w, d).Denying?
    ensures PhaseOf(Step(w, TakeDeny(d)), d).Done?
  {
  }

  // ---------------------------------------------------------------- for ever

  predicate Grounded(s: Store, key: Key) {
    && key in s.messageIndex && s.messageIndex[key] in s.messages
    && s.messages[s.messageIndex[key]].conversation in s.conversations
    && s.conversations[s.messages[s.messageIndex[key]].conversation].grounded
  }

  /** No step gives back a credit stranded by a failed message of a grounded conversation. */
  lemma StrandedStepsStay(w: World, a: Action, key: Key)
    requires WorldInv(w) && Stranded(w.store, key) && Grounded(w.store, key)
    ensures Stranded(Step(w, a).store, key) && Grounded(Step(w, a).store, key)
  {
    hide WorldInv, StoreInv, Step;
    StoreInvOf(w);
    StepEvolves(w, a);
    StepKeeps(w, a);
    StoreInvOf(Step(w, a));
    var e := w.store.ledger.entryIndex[key];
    KeyIndexed(w.store, key);
    ReservedStays(w, a, key, e);
    EntryIndexedAt(Step(w, a).store, e);
  }

  lemma ReservedStays(w: World, a: Action, key: Key, e: Id)
    requires WorldInv(w) && Stranded(w.store, key) && Grounded(w.store, key) && w.store.ledger.entryIndex[key] == e
    requires e in Step(w, a).store.ledger.entries
    ensures Step(w, a).store.ledger.entries[e].status == Reserved
  {
    hide WorldInv, StoreInv, MarkFailed, Claim, Submit, FailClaim, CompleteClaim, Release, Reserve, Adjust;
    StoreInvOf(w);
    EntryFresh(w.store);
    KeyIndexed(w.store, key);
    match a
    case TakeReserve(c, access) => EntryStaysOnReserve(w, c, access, e);
    case TakeClaim(c) =>
      if PhaseOf(w, c).Claiming? { ClaimLeavesLedger(w.store, PhaseOf(w, c).message, PhaseOf(w, c).snapshot, PhaseOf(w, c).now, LeaseDuration(w.timeout)); }
    case TakeDeny(c) => MarkLeavesLedger(w.store);
    case TakeMark(c) => MarkLeavesLedger(w.store);
    case Begin(c, other, conversation, author, content) => SubmitLeavesLedger(w.store, other, conversation, author, content);
    case TakeRelease(c) =>
      if PhaseOf(w, c).Releasing? {
        PhaseSoundAt(w, c);
        IndexedAt(w.store, PhaseOf(w, c).message);
        ReleaseElsewhere(w.store, PhaseOf(w, c).entry, e, w.clock);
      }
    case TakeFail(c) => FailElsewhere(w, c, key, e);
    case TakeComplete(c, accepted) => CompleteElsewhere(w, c, accepted, key, e);
    case AdjustCredit(actorValid, businessKnown, other, delta, reason, adjustAccess) =>
      AdjustLeavesEntries(w.store.ledger, actorValid, businessKnown, other, delta, reason, adjustAccess);
    case _ =>
  }

  lemma AdjustLeavesEntries(l: Ledger, actorValid: bool, businessKnown: bool, key: Key, delta: int, reason: AdjustmentReason, access: Access)
    ensures Adjust(l, actorValid, businessKnown, key, delta, reason, access).0.entries == l.entries
  {
  }

  lemma EntryStaysOnReserve(w: World, c: Id, access: Access, e: Id)
    requires w.store.nextId !in w.store.ledger.entries && e in w.store.ledger.entries
    ensures e in Step(w, TakeReserve(c, access)).store.ledger.entries
    ensures Step(w, TakeReserve(c, access)).store.ledger.entries[e] == w.store.ledger.entries[e]
  {
  }

  lemma ClaimLeavesLedger(s: Store, message: Id, snapshot: Snapshot, now: Time, lease: int)
    ensures Claim(s, message, snapshot, now, lease).0.ledger == s.ledger
  {
  }

  lemma MarkLeavesLedger(s: Store)
    ensures forall message, code, now :: MarkFailed(s, message, code, now).ledger == s.ledger
  {
  }

  lemma SubmitLeavesLedger(s: Store, key: Key, conversation: Id, author: Id, content: string)
    ensures Submit(s, key, conversation, author, content).0.ledger == s.ledger
  {
  }

  lemma ReleaseElsewhere(s: Store, f: Id, e: Id, now: Time)
    requires f != e && e in s.ledger.entries
    ensures e in ReleaseCredit(s, f, ExecutionIntegrity, now).0.ledger.entries
    ensures ReleaseCredit(s, f, ExecutionIntegrity, now).0.ledger.entries[e] == s.ledger.entries[e]
  {
  }

  lemma FailElsewhere(w: World, c: Id, key: Key, e: Id)
    requires WorldInv(w) && Stranded(w.store, key) && w.store.ledger.entryIndex[key] == e
    ensures e in Step(w, TakeFail(c)).store.ledger.entries
    ensures Step(w, TakeFail(c)).store.ledger.entries[e].status == Reserved
  {
    hide WorldInv, StoreInv;
    StoreInvOf(w);
    KeyIndexed(w.store, key);
    PhaseSoundAt(w, c);
    if PhaseOf(w, c).Failing? {
      var Failing(m, f, t, code) := PhaseOf(w, c);
      FailureRefundsOnce(w, c, m, f, t, code);
      IndexedAt(w.store, m);
    }
  }

  lemma CompleteElsewhere(w: World, c: Id, accepted: bool, key: Key, e: Id)
    requires WorldInv(w) && Stranded(w.store, key) && w.store.ledger.entryIndex[key] == e
    ensures e in Step(w, TakeComplete(c, accepted)).store.ledger.entries
    ensures Step(w, TakeComplete(c, accepted)).store.ledger.entries[e].status == Reserved
  {
    hide WorldInv, StoreInv;
    StoreInvOf(w);
    KeyIndexed(w.store, key);
    PhaseSoundAt(w, c);
    if PhaseOf(w, c).Completing? {
      var Completing(m, f, t, text) := PhaseOf(w, c);
      CompletionChargesOnce(w, c, m, f, t, text, accepted);
      IndexedAt(w.store, m);
    }
  }

  /** A stranded credit of a grounded conversation stays reserved in every later state. */
  lemma {:induction false} StrandedForever(w: World, actions: seq<Action>, key: Key)
    requires WorldInv(w) && Stranded(w.store, key) && Grounded(w.store, key)
    ensures Stranded(Run(w, actions).store, key) && Grounded(Run(w, actions).store, key)
  {
    hide WorldInv, Stranded, Grounded, Step;
    if actions == [] {
    } else {
      StrandedForever(w, actions[..|actions| - 1], key);
      RunKeeps(w, actions[..|actions| - 1]);
      StrandedStepsStay(Run(w, actions[..|actions| - 1]), actions[|actions| - 1], key);
    }
  }

  /** Two requests with one key: the first is refused, the second reserves, and the first marks the message. */
  function StrandingRun(key: Key): seq<Action> {
    [ NewConversation(Conversation(key.business, Chat, true)),
      Begin(1, key, 0, 7, "q"),
      Begin(2, key, 0, 7, "q"),
      TakeReserve(1, NoSubscription),
      TakeReserve(2, Granted(5, 0, 100, Some(15))),
      TakeDeny(1),
      TakeClaim(2) ]
  }

  /** A reachable state in which both requests are over and the credit is stranded. */
  lemma StrandingHappens(timeout: int, key: Key)
    ensures var w := Run(InitialWorld(timeout), StrandingRun(key));
      && Stranded(w.store, key) && Grounded(w.store, key)
      && PhaseOf(w, 1) == Done(Rejected(SubscriptionRequired))
      && PhaseOf(w, 2) == Done(Rejected(SubscriptionRequired))
  {
    var script := StrandingRun(key);
    var w0 := InitialWorld(timeout);
    var w1 := Step(w0, script[0]);
    var w2 := Step(w1, script[1]);
    var w3 := Step(w2, script[2]);
    assert PhaseOf(w3, 2) == Reserving(key, 1, 0) && PhaseOf(w3, 1) == Reserving(key, 1, 0);
    StrandingTail(w3, key);
    RunOfSeven(w0, script);
  }

  const OFFER := Granted(5, 0, 100, Some(15))

  lemma FirstLimit(account: AccountKey)
    ensures EffectiveLimit(EMPTY_LEDGER.adjustments, account, Some(15)) == Some(15)
    ensures AccountOrNew(EMPTY_LEDGER, account, Some(15)) == Account(Some(15), 0, 0)
  {
  }

  lemma FirstGrant(key: Key)
    ensures var (l, r) := Reserve(EMPTY_LEDGER, 2, key, OFFER, 0);
      && r.Reservation? && !r.snapshot.replayed && r.snapshot.entry == 2 && r.snapshot.status == Reserved
      && l.entryIndex == map[key := 2] && 2 in l.entries && l.entries[2].status == Reserved
  {
    hide EffectiveLimit, AccountOrNew;
    FirstLimit(OFFER.AccountOf(key.business));
    assert Reserve(EMPTY_LEDGER, 2, key, OFFER, 0) == Grant(EMPTY_LEDGER, 2, key, OFFER.AccountOf(key.business), Some(15), 0);
  }

  lemma StrandingTail(w: World, key: Key)
    requires PhaseOf(w, 1) == Reserving(key, 1, 0) && PhaseOf(w, 2) == Reserving(key, 1, 0)
    requires w.store.ledger == EMPTY_LEDGER && w.store.nextId == 2 && w.store.messageIndex == map[key := 1]
    requires w.store.conversations == map[0 := Conversation(key.business, Chat, true)]
    requires w.store.messages == map[1 := Message(key, 0, 7, "q", Pending, None, None, None, None, None)]
    ensures var w' := Step(Step(Step(Step(w, TakeReserve(1, NoSubscription)), TakeReserve(2, OFFER)), TakeDeny(1)), TakeClaim(2));
      && Stranded(w'.store, key) && Grounded(w'.store, key)
      && PhaseOf(w', 1) == Done(Rejected(SubscriptionRequired))
      && PhaseOf(w', 2) == Done(Rejected(SubscriptionRequired))
  {
    var w4 := Step(w, TakeReserve(1, NoSubscription));
    assert w4 == At(w, 1, Denying(1, SubscriptionRequired, 0));
    var w5 := Step(w4, TakeReserve(2, OFFER));
    FirstGrant(key);
    BothClaiming(w4, w5, key);
    StrandingEnd(w5, key);
  }

  lemma BothClaiming(w: World, w': World, key: Key)
    requires PhaseOf(w, 1) == Denying(1, SubscriptionRequired, 0) && PhaseOf(w, 2) == Reserving(key, 1, 0)
    requires w.store.ledger == EMPTY_LEDGER && w.store.nextId == 2 && w' == Step(w, TakeReserve(2, OFFER))
    ensures PhaseOf(w', 1) == PhaseOf(w, 1) && PhaseOf(w', 2).Claiming? && PhaseOf(w', 2).message == 1
    ensures w'.store.messages == w.store.messages && w'.store.messageIndex == w.store.messageIndex
    ensures w'.store.conversations == w.store.conversations
    ensures HasReserved(w'.store, key)
  {
    hide Reserve;
    FirstGrant(key);
  }

  lemma StrandingEnd(w: World, key: Key)
    requires PhaseOf(w, 1) == Denying(1, SubscriptionRequired, 0) && PhaseOf(w, 2).Claiming? && PhaseOf(w, 2).message == 1
    requires HasReserved(w.store, key) && w.store.messageIndex == map[key := 1]
    requires w.store.conversations == map[0 := Conversation(key.business, Chat, true)]
    requires w.store.messages == map[1 := Message(key, 0, 7, "q", Pending, None, None, None, None, None)]
    ensures var w' := Step(Step(w, TakeDeny(1)), TakeClaim(2));
      && Stranded(w'.store, key) && Grounded(w'.store, key)
      && PhaseOf(w', 1) == Done(Rejected(SubscriptionRequired))
      && PhaseOf(w', 2) == Done(Rejected(SubscriptionRequired))
  {
    var w6 := Step(w, TakeDeny(1));
    var failed := FailedRow(w.store.messages[1], SubscriptionRequired, 0);
    assert w6.store == w.store.(messages := map[1 := failed]);
    assert PhaseOf(w6, 2) == PhaseOf(w, 2) && PhaseOf(w6, 1) == Done(Rejected(SubscriptionRequired));
    ClaimFindsFailure(w6, SubscriptionRequired);
  }

  lemma ClaimFindsFailure(w: World, code: ErrorCode)
    requires PhaseOf(w, 2).Claiming? && PhaseOf(w, 2).message == 1
    requires 1 in w.store.messages && w.store.messages[1].status == Failed && w.store.messages[1].error == Some(code)
    requires !Ungrounded(w.store, 1) && w.store.messages[1].conversation in w.store.conversations
    ensures Step(w, TakeClaim(2)) == At(w, 2, Done(Rejected(code)))
  {
  }

  lemma RunOfSeven(w: World, s: seq<Action>)
    requires |s| == 7
    ensures Run(w, s) == Step(Step(Step(Step(Step(Step(Step(w, s[0]), s[1]), s[2]), s[3]), s[4]), s[5]), s[6])
  {
    hide Step, Run;
    assert s[..7] == s;
    RunLast(w, s, 0);
    RunLast(w, s, 1);
    RunLast(w, s, 2);
    RunLast(w, s, 3);
    RunLast(w, s, 4);
    RunLast(w, s, 5);
    RunLast(w, s, 6);
    assert Run(w, s[..0]) == w by { RunNothing(w, s[..0]); }
  }

  lemma RunNothing(w: World, s: seq<Action>)
    requires s == []
    ensures Run(w, s) == w
  {
  }

  lemma RunLast(w: World, s: seq<Action>, i: nat)
    requires i < |s|
    ensures Run(w, s[..i + 1]) == Step(Run(w, s[..i]), s[i])
  {
    hide Step;
    assert s[..i + 1][..i] == s[..i];
  }
}
