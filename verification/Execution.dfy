/** The conversation tables and the transactions of one AI request. */
module Execution {
  import opened CreditModel
  import opened CreditLedger

  datatype Purpose = Chat | DashboardAnalysis

  /** `grounded`: the conversation has no dashboard snapshot, or a snapshot whose context can be rendered. */
  datatype Conversation = Conversation(business: Id, purpose: Purpose, grounded: bool)

  datatype MessageStatus = Pending | Completed | Failed

  /** A row of the message table with role USER. */
  datatype Message = Message(
    key: Key,
    conversation: Id,
    author: Id,
    content: string,
    status: MessageStatus,
    entry: Option<Id>,
    token: Option<Id>,
    leaseUntil: Option<Time>,
    completedAt: Option<Time>,
    error: Option<ErrorCode>)

  /** A row of the message table with role ASSISTANT. */
  datatype Reply = Reply(business: Id, conversation: Id, replyTo: Id, entry: Id, content: string, completedAt: Time)

  datatype Store = Store(
    ledger: Ledger,
    conversations: map<Id, Conversation>,
    messages: map<Id, Message>,
    messageIndex: map<Key, Id>,
    replies: map<Id, Reply>,
    replyIndex: map<Id, Id>,
    nextId: Id)

  const EMPTY_STORE := Store(EMPTY_LEDGER, map[], map[], map[], map[], map[], 0)

  const SECOND: int := 1_000_000

  /** The lease: the provider timeout plus thirty seconds, and at least ninety seconds. */
  function LeaseDuration(timeoutSeconds: int): int {
    (if timeoutSeconds + 30 > 90 then timeoutSeconds + 30 else 90) * SECOND
  }

  datatype SubmitResult =
    | Submitted(message: Id, replayed: bool)
    | ReplayConflict
    | ConversationNotFound

  datatype ClaimResult =
    | Claimed(token: Id)
    | ClaimInProgress
    | ClaimCompleted(reply: Id)
    | ClaimFailed(code: ErrorCode)
    | ClaimIntegrity
    | ClaimEscaped

  datatype FailResult = FailSettled | FailIgnored | FailIntegrity

  datatype CompleteResult =
    | CompletedNow(reply: Id)
    | CompletedBefore(reply: Id)
    | FailedBefore(code: ErrorCode)
    | Superseded
    | CompleteIntegrity
    | CompleteEscaped

  // ---------------------------------------------------------------- transactions

  function OpenConversation(s: Store, conversation: Conversation): Store {
    s.(conversations := s.conversations[s.nextId := conversation], nextId := s.nextId + 1)
  }

  function Submit(s: Store, key: Key, conversation: Id, author: Id, content: string): (Store, SubmitResult) {
    if key in s.messageIndex && s.messageIndex[key] in s.messages then
      var existing := s.messages[s.messageIndex[key]];
      if existing.conversation != conversation || existing.author != author || existing.content != content then
        (s, ReplayConflict)
      else
        (s, Submitted(s.messageIndex[key], true))
    else if conversation !in s.conversations || s.conversations[conversation].business != key.business then
      (s, ConversationNotFound)
    else
      var message := Message(key, conversation, author, content, Pending, None, None, None, None, None);
      (s.(messages := s.messages[s.nextId := message],
          messageIndex := s.messageIndex[key := s.nextId],
          nextId := s.nextId + 1),
       Submitted(s.nextId, false))
  }

  function ReserveCredit(s: Store, key: Key, access: Access, now: Time): (Store, ReserveResult) {
    var (ledger, result) := Reserve(s.ledger, s.nextId, key, access, now);
    if result.Reservation? && !result.snapshot.replayed then
      (s.(ledger := ledger, nextId := s.nextId + 1), result)
    else
      (s, result)
  }

  predicate LeaseActive(m: Message, now: Time) {
    m.token.Some? && m.leaseUntil.Some? && m.leaseUntil.value > now
  }

  function Claim(s: Store, message: Id, snapshot: Snapshot, now: Time, lease: int): (Store, ClaimResult) {
    if message !in s.messages || s.messages[message].conversation !in s.conversations then (s, ClaimIntegrity)
    else if !s.conversations[s.messages[message].conversation].grounded then (s, ClaimIntegrity)
    else
      var m := s.messages[message];
      match m.status
      case Completed =>
        if message !in s.replyIndex then (s, ClaimIntegrity)
        else if !Locked(s.ledger, snapshot.entry) then (s, ClaimEscaped)
        else (s, ClaimCompleted(s.replyIndex[message]))
      case Failed =>
        if m.error.None? then (s, ClaimIntegrity) else (s, ClaimFailed(m.error.value))
      case Pending =>
        if snapshot.status != Reserved then (s, ClaimIntegrity)
        else if m.entry.Some? && m.entry.value != snapshot.entry then (s, ClaimIntegrity)
        else if LeaseActive(m, now) then (s, ClaimInProgress)
        else
          (s.(messages := s.messages[message :=
                m.(entry := Some(snapshot.entry), token := Some(s.nextId), leaseUntil := Some(now + lease))],
              nextId := s.nextId + 1),
           Claimed(s.nextId))
  }

  function FailedRow(m: Message, code: ErrorCode, now: Time): Message {
    m.(status := Failed, completedAt := Some(now), error := Some(code), token := None, leaseUntil := None)
  }

  function MarkFailed(s: Store, message: Id, code: ErrorCode, now: Time): Store {
    if message !in s.messages then s
    else if s.messages[message].status != Pending || s.messages[message].entry.Some? then s
    else s.(messages := s.messages[message := FailedRow(s.messages[message], code, now)])
  }

  function ReleaseCredit(s: Store, entry: Id, code: ErrorCode, now: Time): (Store, SettleResult) {
    var (ledger, result) := Release(s.ledger, entry, code, now);
    (s.(ledger := ledger), result)
  }

  function FailClaim(s: Store, message: Id, entry: Id, token: Id, code: ErrorCode, now: Time): (Store, FailResult) {
    if message !in s.messages then (s, FailIntegrity)
    else
      var m := s.messages[message];
      if m.status != Pending || m.token != Some(token) then (s, FailIgnored)
      else if m.entry != Some(entry) || !Locked(s.ledger, entry) then (s, FailIntegrity)
      else
        var failed := s.(messages := s.messages[message := FailedRow(m, code, now)]);
        match s.ledger.entries[entry].status
        case Reserved =>
          if s.ledger.accounts[s.ledger.entries[entry].account].reserved < 1 then (s, FailIntegrity)
          else (failed.(ledger := MarkReleased(s.ledger, entry, code, now)), FailSettled)
        case Released => (failed, FailSettled)
        case Consumed => (s, FailIntegrity)
  }

  function CompletedRow(m: Message, now: Time): Message {
    m.(status := Completed, completedAt := Some(now), error := None, token := None, leaseUntil := None)
  }

  /** `accepted` is false when the database rejects the rows at flush time. */
  function CompleteClaim(s: Store, message: Id, entry: Id, token: Id, text: string, accepted: bool, now: Time)
    : (Store, CompleteResult)
  {
    if message !in s.messages || s.messages[message].conversation !in s.conversations then (s, CompleteIntegrity)
    else
      var m := s.messages[message];
      match m.status
      case Completed =>
        if message !in s.replyIndex then (s, CompleteIntegrity)
        else if !Locked(s.ledger, entry) then (s, CompleteEscaped)
        else (s, CompletedBefore(s.replyIndex[message]))
      case Failed =>
        if m.error.None? then (s, CompleteIntegrity) else (s, FailedBefore(m.error.value))
      case Pending =>
        if m.token != Some(token) || m.entry != Some(entry) then (s, Superseded)
        else if !Locked(s.ledger, entry) || s.ledger.entries[entry].status != Reserved then (s, CompleteIntegrity)
        else if s.ledger.accounts[s.ledger.entries[entry].account].reserved < 1 then (s, CompleteIntegrity)
        else if !accepted || message in s.replyIndex then (s, CompleteIntegrity)
        else
          var reply := Reply(m.key.business, m.conversation, message, entry, text, now);
          (s.(ledger := MarkConsumed(s.ledger, entry, now),
              messages := s.messages[message := CompletedRow(m, now)],
              replies := s.replies[s.nextId := reply],
              replyIndex := s.replyIndex[message := s.nextId],
              nextId := s.nextId + 1),
           CompletedNow(s.nextId))
  }

  // ---------------------------------------------------------------- invariant

  /** The shape the message table's status CHECK demands of a user row. */
  predicate RowShape(m: Message) {
    match m.status
    case Pending =>
      && m.completedAt.None? && m.error.None?
      && ((m.entry.None? && m.token.None? && m.leaseUntil.None?)
          || (m.entry.Some? && m.token.Some? && m.leaseUntil.Some?))
    case Completed =>
      m.entry.Some? && m.completedAt.Some? && m.error.None? && m.token.None? && m.leaseUntil.None?
    case Failed =>
      m.completedAt.Some? && m.error.Some? && m.token.None? && m.leaseUntil.None?
  }

  /** The ledger status that goes with the status of the message holding the entry. */
  function LedgerStatusFor(status: MessageStatus): EntryStatus {
    match status
    case Pending => Reserved
    case Completed => Consumed
    case Failed => Released
  }

  ghost predicate MessageSound(m: Message, conversations: map<Id, Conversation>, entries: map<Id, Entry>) {
    && RowShape(m)
    && m.conversation in conversations
    && conversations[m.conversation].business == m.key.business
    && (m.entry.Some? ==>
          && conversations[m.conversation].grounded
          && m.entry.value in entries
          && entries[m.entry.value].key == m.key
          && entries[m.entry.value].status == LedgerStatusFor(m.status))
  }

  ghost predicate MessagesSound(messages: map<Id, Message>, conversations: map<Id, Conversation>, entries: map<Id, Entry>) {
    forall i | i in messages :: MessageSound(messages[i], conversations, entries)
  }

  /** The unique constraint on (business, digest) of the message table. */
  ghost predicate MessageIndexExact(messages: map<Id, Message>, index: map<Key, Id>) {
    && (forall k | k in index :: index[k] in messages && messages[index[k]].key == k)
    && (forall i | i in messages :: messages[i].key in index && index[messages[i].key] == i)
  }

  /** Every consumed credit is held by the message of its key. */
  ghost predicate ConsumedHeld(entries: map<Id, Entry>, messages: map<Id, Message>, index: map<Key, Id>) {
    forall e | e in entries && entries[e].status == Consumed ::
      && entries[e].key in index
      && index[entries[e].key] in messages
      && messages[index[entries[e].key]].entry == Some(e)
  }

  /** A credit is given back only with a failed message, or for a conversation that cannot be grounded. */
  ghost predicate ReleasedExplained(
    entries: map<Id, Entry>, messages: map<Id, Message>, index: map<Key, Id>, conversations: map<Id, Conversation>)
  {
    forall e | e in entries && entries[e].status == Released ::
      && entries[e].key in index
      && index[entries[e].key] in messages
      && (messages[index[entries[e].key]].status == Failed
          || Ungroundable(messages[index[entries[e].key]].conversation, conversations))
  }

  predicate Ungroundable(conversation: Id, conversations: map<Id, Conversation>) {
    conversation in conversations && !conversations[conversation].grounded
  }

  ghost predicate ReplySound(r: Id, replies: map<Id, Reply>, replyIndex: map<Id, Id>, messages: map<Id, Message>)
    requires r in replies
  {
    var reply := replies[r];
    && reply.replyTo in messages
    && messages[reply.replyTo].status == Completed
    && messages[reply.replyTo].entry == Some(reply.entry)
    && messages[reply.replyTo].conversation == reply.conversation
    && messages[reply.replyTo].key.business == reply.business
    && reply.replyTo in replyIndex
    && replyIndex[reply.replyTo] == r
  }

  ghost predicate RepliesSound(replies: map<Id, Reply>, replyIndex: map<Id, Id>, messages: map<Id, Message>) {
    && (forall r | r in replies :: ReplySound(r, replies, replyIndex, messages))
    && (forall m | m in replyIndex :: replyIndex[m] in replies && replies[replyIndex[m]].replyTo == m)
    && (forall m | m in messages && messages[m].status == Completed :: m in replyIndex)
  }

  /** Identifiers in use lie below the supply of fresh ones. */
  ghost predicate Issued(ids: set<Id>, nextId: Id) {
    forall i | i in ids :: i < nextId
  }

  ghost predicate TokensIssued(messages: map<Id, Message>, nextId: Id) {
    forall i | i in messages && messages[i].token.Some? :: messages[i].token.value < nextId
  }

  ghost predicate IdsIssued(s: Store) {
    && Issued(s.ledger.entries.Keys, s.nextId)
    && Issued(s.conversations.Keys, s.nextId)
    && Issued(s.messages.Keys, s.nextId)
    && Issued(s.replies.Keys, s.nextId)
    && TokensIssued(s.messages, s.nextId)
  }

  ghost predicate StoreInv(s: Store) {
    && LedgerInv(s.ledger)
    && MessagesSound(s.messages, s.conversations, s.ledger.entries)
    && MessageIndexExact(s.messages, s.messageIndex)
    && ConsumedHeld(s.ledger.entries, s.messages, s.messageIndex)
    && ReleasedExplained(s.ledger.entries, s.messages, s.messageIndex, s.conversations)
    && RepliesSound(s.replies, s.replyIndex, s.messages)
    && IdsIssued(s)
  }

  // ---------------------------------------------------------------- what never changes again

  ghost predicate EntriesEvolve(before: map<Id, Entry>, after: map<Id, Entry>) {
    forall e | e in before ::
      && e in after
      && after[e].key == before[e].key
      && after[e].account == before[e].account
      && (before[e].status != Reserved ==> after[e] == before[e])
  }

  ghost predicate MessageEvolves(before: Message, after: Message, issued: Id) {
    && after.key == before.key
    && after.conversation == before.conversation
    && after.author == before.author
    && after.content == before.content
    && (before.status != Pending ==> after == before)
    && (before.entry.Some? ==> after.entry == before.entry)
    && (after.token.Some? && after.token.value < issued ==>
          after.token == before.token && after.leaseUntil == before.leaseUntil)
  }

  ghost predicate MessagesEvolve(before: map<Id, Message>, after: map<Id, Message>, issued: Id) {
    forall m | m in before :: m in after && MessageEvolves(before[m], after[m], issued)
  }

  ghost predicate Grows<K, V>(before: map<K, V>, after: map<K, V>) {
    forall k | k in before :: k in after && after[k] == before[k]
  }

  /** The guarantee every transaction gives to the others. */
  ghost predicate Evolves(s: Store, s': Store) {
    && EntriesEvolve(s.ledger.entries, s'.ledger.entries)
    && MessagesEvolve(s.messages, s'.messages, s.nextId)
    && Grows(s.conversations, s'.conversations)
    && Grows(s.messageIndex, s'.messageIndex)
    && Grows(s.replies, s'.replies)
    && Grows(s.replyIndex, s'.replyIndex)
    && s.nextId <= s'.nextId
  }
}
