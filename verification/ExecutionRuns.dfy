/** Concurrent requests: clients with program counters over one store, with crashes and a clock. */
module ExecutionRuns {
  import opened CreditModel
  import opened CreditLedger
  import opened Execution
  import opened ExecutionLemmas

  datatype GatewayFailure = Configuration | Temporary | Blocked | RequestRejected | Incomplete | InvalidResponse | RequestInvalid | OtherFailure

  datatype Response = GatewayError(failure: GatewayFailure) | Generated(text: string, validAnalysis: bool)

  datatype Outcome = Answered(reply: Id) | StillRunning | Rejected(code: ErrorCode) | NotAccepted | Crashed | Escaped

  /** Where a request is between two of its transactions. */
  datatype Phase =
    | Idle
    | Reserving(key: Key, message: Id, now: Time)
    | Denying(message: Id, code: ErrorCode, now: Time)
    | Claiming(message: Id, snapshot: Snapshot, now: Time)
    | Releasing(message: Id, entry: Id)
    | Marking(message: Id)
    | Holding(message: Id, entry: Id, token: Id)
    | Calling(message: Id, entry: Id, token: Id)
    | Failing(message: Id, entry: Id, token: Id, code: ErrorCode)
    | Completing(message: Id, entry: Id, token: Id, text: string)
    | Done(outcome: Outcome)
  {
    predicate HasToken() { Holding? || Calling? || Failing? || Completing? }
  }

  /** The provider call made under one token; `checkedAt` is the time its request read at its start. */
  datatype Call = Call(message: Id, checkedAt: Time, started: Option<Time>, ended: Option<Time>)

  datatype World = World(store: Store, clients: map<Id, Phase>, calls: map<Id, Call>, clock: Time, timeout: int)

  datatype Action =
    | Begin(client: Id, key: Key, conversation: Id, author: Id, content: string)
    | TakeReserve(client: Id, access: Access)
    | TakeDeny(client: Id)
    | TakeClaim(client: Id)
    | TakeRelease(client: Id)
    | TakeMark(client: Id)
    | StartCall(client: Id)
    | EndCall(client: Id, response: Response)
    | TakeFail(client: Id)
    | TakeComplete(client: Id, accepted: bool)
    | Crash(client: Id)
    | Tick(elapsed: nat)
    | AdjustCredit(actorValid: bool, businessKnown: bool, adjustmentKey: Key, delta: int, reason: AdjustmentReason, adjustmentAccess: Access)
    | NewConversation(newConversation: Conversation)

  const MESSAGE_CONTENT_MAX_LENGTH: nat := 12_000

  function ProviderErrorCode(failure: GatewayFailure): ErrorCode {
    match failure
    case Configuration => ProviderConfiguration
    case Temporary => ProviderTemporary
    case Blocked => ProviderBlocked
    case RequestRejected => ProviderRejected
    case Incomplete => ProviderIncomplete
    case InvalidResponse => ProviderInvalid
    case RequestInvalid => ProviderInvalid
    case OtherFailure => ProviderTemporary
  }

  function ReservationErrorCode(refusal: Refusal): ErrorCode {
    match refusal
    case NeedsSubscription => SubscriptionRequired
    case NotActive => SubscriptionInactive
    case NotEntitled => EntitlementDenied
    case LimitReached => CreditLimitReached
    case CreditIntegrity => ExecutionIntegrity
  }

  function InitialWorld(timeout: int): World {
    World(EMPTY_STORE, map[], map[], 0, timeout)
  }

  function PhaseOf(w: World, c: Id): Phase {
    if c in w.clients then w.clients[c] else Idle
  }

  function At(w: World, c: Id, phase: Phase): World {
    w.(clients := w.clients[c := phase])
  }

  /** What a request does after its message is submitted, from the state the submission found. */
  function AfterSubmit(s: Store, key: Key, r: SubmitResult, now: Time): Phase {
    match r
    case ReplayConflict => Done(NotAccepted)
    case ConversationNotFound => Done(NotAccepted)
    case Submitted(message, replayed) =>
      if !replayed || message !in s.messages then Reserving(key, message, now)
      else
        var m := s.messages[message];
        match m.status
        case Pending => Reserving(key, message, now)
        case Failed => if m.error.None? then Done(Escaped) else Done(Rejected(m.error.value))
        case Completed =>
          if message !in s.replyIndex || m.entry.None? || !Locked(s.ledger, m.entry.value) then Done(Escaped)
          else Done(Answered(s.replyIndex[message]))
  }

  function AfterReserve(message: Id, r: ReserveResult, now: Time): Phase {
    match r
    case Reservation(snapshot) => Claiming(message, snapshot, now)
    case Refused(refusal) => Denying(message, ReservationErrorCode(refusal), now)
  }

  function AfterClaim(message: Id, entry: Id, r: ClaimResult): Phase {
    match r
    case Claimed(token) => Holding(message, entry, token)
    case ClaimInProgress => Done(StillRunning)
    case ClaimCompleted(reply) => Done(Answered(reply))
    case ClaimFailed(code) => Done(Rejected(code))
    case ClaimIntegrity => Releasing(message, entry)
    case ClaimEscaped => Done(Escaped)
  }

  function AfterRelease(message: Id, r: SettleResult): Phase {
    if r.Settlement? then Marking(message) else Done(Rejected(ExecutionIntegrity))
  }

  function AfterCall(s: Store, message: Id, entry: Id, token: Id, response: Response): Phase {
    match response
    case GatewayError(failure) => Failing(message, entry, token, ProviderErrorCode(failure))
    case Generated(text, validAnalysis) =>
      if |text| > MESSAGE_CONTENT_MAX_LENGTH then Failing(message, entry, token, ResponseTooLarge)
      else if message in s.messages && s.messages[message].conversation in s.conversations
              && s.conversations[s.messages[message].conversation].purpose == DashboardAnalysis && !validAnalysis then
        Failing(message, entry, token, ProviderInvalid)
      else Completing(message, entry, token, text)
  }

  function AfterFail(code: ErrorCode, r: FailResult): Phase {
    if r.FailIntegrity? && code != PersistenceFailure then Done(Escaped) else Done(Rejected(code))
  }

  function AfterComplete(message: Id, entry: Id, token: Id, r: CompleteResult): Phase {
    match r
    case CompletedNow(reply) => Done(Answered(reply))
    case CompletedBefore(reply) => Done(Answered(reply))
    case FailedBefore(code) => Done(Rejected(code))
    case Superseded => Done(StillRunning)
    case CompleteIntegrity => Failing(message, entry, token, PersistenceFailure)
    case CompleteEscaped => Done(Escaped)
  }

  /** One step; an action that is not enabled leaves the world as it is. */
  function Step(w: World, a: Action): World {
    match a
    case Begin(c, key, conversation, author, content) =>
      if !PhaseOf(w, c).Idle? then w
      else
        var (s', r) := Submit(w.store, key, conversation, author, content);
        At(w.(store := s'), c, AfterSubmit(w.store, key, r, w.clock))
    case TakeReserve(c, access) =>
      (match PhaseOf(w, c)
       case Reserving(key, message, now) =>
         var (s', r) := ReserveCredit(w.store, key, access, now);
         At(w.(store := s'), c, AfterReserve(message, r, now))
       case _ => w)
    case TakeDeny(c) =>
      (match PhaseOf(w, c)
       case Denying(message, code, now) =>
         At(w.(store := MarkFailed(w.store, message, code, now)), c, Done(Rejected(code)))
       case _ => w)
    case TakeClaim(c) =>
      (match PhaseOf(w, c)
       case Claiming(message, snapshot, now) =>
         var (s', r) := Claim(w.store, message, snapshot, now, LeaseDuration(w.timeout));
         var w' := At(w.(store := s'), c, AfterClaim(message, snapshot.entry, r));
         if r.Claimed? then w'.(calls := w.calls[r.token := Call(message, now, None, None)]) else w'
       case _ => w)
    case TakeRelease(c) =>
      (match PhaseOf(w, c)
       case Releasing(message, entry) =>
         var (s', r) := ReleaseCredit(w.store, entry, ExecutionIntegrity, w.clock);
         At(w.(store := s'), c, AfterRelease(message, r))
       case _ => w)
    case TakeMark(c) =>
      (match PhaseOf(w, c)
       case Marking(message) =>
         At(w.(store := MarkFailed(w.store, message, ExecutionIntegrity, w.clock)), c, Done(Rejected(ExecutionIntegrity)))
       case _ => w)
    case StartCall(c) =>
      (match PhaseOf(w, c)
       case Holding(message, entry, token) =>
         if token !in w.calls then w
         else
           At(w, c, Calling(message, entry, token)).(calls := w.calls[token := w.calls[token].(started := Some(w.clock))])
       case _ => w)
    case EndCall(c, response) =>
      (match PhaseOf(w, c)
       case Calling(message, entry, token) =>
         if token !in w.calls then w
         else
           At(w, c, AfterCall(w.store, message, entry, token, response))
             .(calls := w.calls[token := w.calls[token].(ended := Some(w.clock))])
       case _ => w)
    case TakeFail(c) =>
      (match PhaseOf(w, c)
       case Failing(message, entry, token, code) =>
         var (s', r) := FailClaim(w.store, message, entry, token, code, w.clock);
         At(w.(store := s'), c, AfterFail(code, r))
       case _ => w)
    case TakeComplete(c, accepted) =>
      (match PhaseOf(w, c)
       case Completing(message, entry, token, text) =>
         var (s', r) := CompleteClaim(w.store, message, entry, token, text, accepted, w.clock);
         At(w.(store := s'), c, AfterComplete(message, entry, token, r))
       case _ => w)
    case Crash(c) =>
      if PhaseOf(w, c).Idle? || PhaseOf(w, c).Done? then w else At(w, c, Done(Crashed))
    case Tick(elapsed) => w.(clock := w.clock + elapsed)
    case AdjustCredit(actorValid, businessKnown, key, delta, reason, access) =>
      w.(store := w.store.(ledger := Adjust(w.store.ledger, actorValid, businessKnown, key, delta, reason, access).0))
    case NewConversation(conversation) => w.(store := OpenConversation(w.store, conversation))
  }

  function Run(w: World, actions: seq<Action>): World {
    if actions == [] then w else Step(Run(w, actions[..|actions| - 1]), actions[|actions| - 1])
  }

  // ---------------------------------------------------------------- invariant

  /** The entry is the one of the message's key. */
  predicate Paired(s: Store, message: Id, entry: Id) {
    && message in s.messages
    && entry in s.ledger.entries
    && s.ledger.entries[entry].key == s.messages[message].key
  }

  predicate Ungrounded(s: Store, message: Id) {
    && message in s.messages
    && s.messages[message].conversation in s.conversations
    && !s.conversations[s.messages[message].conversation].grounded
  }

  /** The key's credit was reserved once and is not any more. */
  ghost predicate GivenBack(s: Store, message: Id)
    requires message in s.messages
  {
    exists e | e in s.ledger.entries :: s.ledger.entries[e].key == s.messages[message].key && s.ledger.entries[e].status != Reserved
  }

  ghost predicate PhaseSound(s: Store, calls: map<Id, Call>, phase: Phase) {
    match phase
    case Idle => true
    case Reserving(key, message, _) => message in s.messages && s.messages[message].key == key
    case Denying(message, _, _) => message in s.messages
    case Claiming(message, snapshot, _) =>
      && Paired(s, message, snapshot.entry)
      && (snapshot.status != Reserved ==> s.ledger.entries[snapshot.entry].status == snapshot.status)
    case Releasing(message, entry) =>
      && Paired(s, message, entry)
      && (Ungrounded(s, message) || s.ledger.entries[entry].status == Released)
    case Marking(message) => message in s.messages && GivenBack(s, message)
    case Holding(message, entry, token) => Paired(s, message, entry) && token in calls && calls[token].message == message
    case Calling(message, entry, token) => Paired(s, message, entry) && token in calls && calls[token].message == message
    case Failing(message, entry, token, _) => Paired(s, message, entry) && token in calls && calls[token].message == message
    case Completing(message, entry, token, _) => Paired(s, message, entry) && token in calls && calls[token].message == message
    case Done(_) => true
  }

  ghost predicate PhasesSound(s: Store, calls: map<Id, Call>, clients: map<Id, Phase>) {
    forall c | c in clients :: PhaseSound(s, calls, clients[c])
  }

  /** No two clients hold the same token. */
  ghost predicate TokensApart(clients: map<Id, Phase>) {
    forall c, d | c in clients && d in clients && c != d && clients[c].HasToken() && clients[d].HasToken() ::
      clients[c].token != clients[d].token
  }

  /** Every claim ever made, against the rows: a pending row carries the latest token of its message. */
  ghost predicate CallsCurrent(calls: map<Id, Call>, messages: map<Id, Message>, nextId: Id) {
    forall t | t in calls ::
      && t < nextId
      && calls[t].message in messages
      && (messages[calls[t].message].status == Pending ==>
            messages[calls[t].message].token.Some? && t <= messages[calls[t].message].token.value)
  }

  ghost predicate LeasesRecorded(calls: map<Id, Call>, messages: map<Id, Message>, lease: int) {
    forall m | m in messages && messages[m].token.Some? ::
      && messages[m].token.value in calls
      && calls[messages[m].token.value].message == m
      && messages[m].leaseUntil == Some(calls[messages[m].token.value].checkedAt + lease)
  }

  /** Two claims of one message are a lease apart. */
  ghost predicate ClaimsSeparated(calls: map<Id, Call>, lease: int) {
    forall t, u | t in calls && u in calls && t < u && calls[t].message == calls[u].message ::
      calls[t].checkedAt + lease <= calls[u].checkedAt
  }

  ghost predicate WorldInv(w: World) {
    && StoreInv(w.store)
    && PhasesSound(w.store, w.calls, w.clients)
    && TokensApart(w.clients)
    && CallsCurrent(w.calls, w.store.messages, w.store.nextId)
    && LeasesRecorded(w.calls, w.store.messages, LeaseDuration(w.timeout))
    && ClaimsSeparated(w.calls, LeaseDuration(w.timeout))
  }

  // ---------------------------------------------------------------- stability

  lemma PhaseStable(s: Store, s': Store, calls: map<Id, Call>, calls': map<Id, Call>, phase: Phase)
    requires PhaseSound(s, calls, phase) && Evolves(s, s')
    requires forall t | t in calls :: t in calls' && calls'[t].message == calls[t].message
    ensures PhaseSound(s', calls', phase)
  {
    if phase.Marking? {
      var e :| e in s.ledger.entries && s.ledger.entries[e].key == s.messages[phase.message].key && s.ledger.entries[e].status != Reserved;
      assert e in s'.ledger.entries;
    }
  }

  lemma PhasesStable(s: Store, s': Store, calls: map<Id, Call>, calls': map<Id, Call>, clients: map<Id, Phase>, c: Id, phase: Phase)
    requires PhasesSound(s, calls, clients) && Evolves(s, s') && PhaseSound(s', calls', phase)
    requires forall t | t in calls :: t in calls' && calls'[t].message == calls[t].message
    ensures PhasesSound(s', calls', clients[c := phase])
    ensures PhasesSound(s', calls', clients)
  {
    hide PhaseSound, Evolves;
    forall d | d in clients ensures PhaseSound(s', calls', clients[d]) {
      PhaseStable(s, s', calls, calls', clients[d]);
    }
  }

  /** A client keeps or drops the token it holds. */
  lemma TokensStayApart(clients: map<Id, Phase>, c: Id, phase: Phase)
    requires TokensApart(clients)
    requires phase.HasToken() ==> c in clients && clients[c].HasToken() && clients[c].token == phase.token
    ensures TokensApart(clients[c := phase])
  {
  }

  /** No row gains a token. */
  ghost predicate TokensKept(messages: map<Id, Message>, messages': map<Id, Message>) {
    forall m | m in messages' && messages'[m].token.Some? ::
      m in messages && messages[m].token == messages'[m].token && messages[m].leaseUntil == messages'[m].leaseUntil
  }

  lemma KeepTokens(messages: map<Id, Message>, m: Id, row: Message)
    requires row.token.None?
    ensures TokensKept(messages, messages[m := row]) && TokensKept(messages, messages)
  {
  }

  lemma CallsStable(s: Store, s': Store, calls: map<Id, Call>, lease: int)
    requires StoreInv(s) && StoreInv(s') && Evolves(s, s') && TokensKept(s.messages, s'.messages)
    requires CallsCurrent(calls, s.messages, s.nextId) && LeasesRecorded(calls, s.messages, lease)
    ensures CallsCurrent(calls, s'.messages, s'.nextId) && LeasesRecorded(calls, s'.messages, lease)
  {
    hide LedgerInv, MessageIndexExact, ConsumedHeld, RepliesSound, IdsIssued, EntriesEvolve, Grows;
    forall t | t in calls
      ensures t < s'.nextId && calls[t].message in s'.messages
      ensures s'.messages[calls[t].message].status == Pending ==>
        s'.messages[calls[t].message].token.Some? && t <= s'.messages[calls[t].message].token.value
    {
      var m := calls[t].message;
      SoundAt(s, m);
      SoundAt(s', m);
    }
  }

  /** A transaction of client `c` that claims nothing. */
  lemma StoreStep(w: World, s': Store, c: Id, phase: Phase)
    requires WorldInv(w) && StoreInv(s') && Evolves(w.store, s') && TokensKept(w.store.messages, s'.messages)
    requires PhaseSound(s', w.calls, phase)
    requires phase.HasToken() ==> PhaseOf(w, c).HasToken() && PhaseOf(w, c).token == phase.token
    ensures WorldInv(At(w.(store := s'), c, phase))
  {
    hide StoreInv, PhasesSound, PhaseSound, TokensApart, CallsCurrent, LeasesRecorded, ClaimsSeparated, Evolves, TokensKept;
    PhasesStable(w.store, s', w.calls, w.calls, w.clients, c, phase);
    TokensStayApart(w.clients, c, phase);
    CallsStable(w.store, s', w.calls, LeaseDuration(w.timeout));
  }

  lemma EnvironmentStep(w: World, s': Store)
    requires WorldInv(w) && StoreInv(s') && Evolves(w.store, s') && s'.messages == w.store.messages
    ensures WorldInv(w.(store := s'))
  {
    hide StoreInv, PhasesSound, TokensApart, CallsCurrent, LeasesRecorded, ClaimsSeparated, Evolves;
    PhasesStable(w.store, s', w.calls, w.calls, w.clients, 0, Idle);
    CallsStable(w.store, s', w.calls, LeaseDuration(w.timeout));
  }

  lemma PhaseSoundAt(w: World, c: Id)
    requires WorldInv(w)
    ensures PhaseSound(w.store, w.calls, PhaseOf(w, c))
  {
  }

  // ---------------------------------------------------------------- one lemma a step

  lemma BeginKeeps(w: World, c: Id, key: Key, conversation: Id, author: Id, content: string)
    requires WorldInv(w)
    ensures WorldInv(Step(w, Begin(c, key, conversation, author, content)))
  {
    hide WorldInv, StoreInv, Evolves, TokensKept;
    if PhaseOf(w, c).Idle? {
      assert StoreInv(w.store) by { BeginFacts(w); }
      var (s', r) := Submit(w.store, key, conversation, author, content);
      SubmitKeeps(w.store, key, conversation, author, content);
      SubmitFacts(w.store, key, conversation, author, content);
      StoreStep(w, s', c, AfterSubmit(w.store, key, r, w.clock));
    }
  }

  lemma BeginFacts(w: World)
    requires WorldInv(w)
    ensures StoreInv(w.store)
  {
  }

  lemma SubmitFacts(s: Store, key: Key, conversation: Id, author: Id, content: string)
    requires StoreInv(s)
    ensures TokensKept(s.messages, Submit(s, key, conversation, author, content).0.messages)
    ensures var (s', r) := Submit(s, key, conversation, author, content);
      r.Submitted? ==> r.message in s'.messages && s'.messages[r.message].key == key
  {
    hide LedgerInv, MessagesSound, ConsumedHeld, RepliesSound, IdsIssued;
    var (s', r) := Submit(s, key, conversation, author, content);
    if r.Submitted? && !r.replayed {
      KeepTokens(s.messages, s.nextId, s'.messages[s.nextId]);
    }
  }
}
