/** Every transaction of a request keeps the store's invariant and gives the others its guarantee. */
module ExecutionLemmas {
  import opened CreditModel
  import opened CreditLedger
  import LedgerLemmas
  import opened Execution

  // ---------------------------------------------------------------- one table at a time

  lemma WriteTokens(messages: map<Id, Message>, nextId: Id, i: Id, m: Message, nextId': Id)
    requires TokensIssued(messages, nextId) && nextId <= nextId' && (m.token.Some? ==> m.token.value < nextId')
    ensures TokensIssued(messages[i := m], nextId')
  {
  }

  lemma GrowOne<K, V>(before: map<K, V>, k: K, v: V)
    requires k in before ==> before[k] == v
    ensures Grows(before, before[k := v])
  {
  }

  lemma EvolveMessage(messages: map<Id, Message>, issued: Id, i: Id, m: Message)
    requires i in messages ==> MessageEvolves(messages[i], m, issued)
    ensures MessagesEvolve(messages, messages[i := m], issued)
  {
  }

  lemma EvolveEntry(entries: map<Id, Entry>, i: Id, e: Entry)
    requires i in entries ==> e.key == entries[i].key && e.account == entries[i].account && entries[i].status == Reserved
    ensures EntriesEvolve(entries, entries[i := e])
  {
  }

  lemma NothingEvolves(s: Store)
    ensures EntriesEvolve(s.ledger.entries, s.ledger.entries)
    ensures MessagesEvolve(s.messages, s.messages, s.nextId)
    ensures Grows(s.conversations, s.conversations) && Grows(s.messageIndex, s.messageIndex)
    ensures Grows(s.replies, s.replies) && Grows(s.replyIndex, s.replyIndex)
    ensures Evolves(s, s)
  {
  }

  lemma WriteMessageSound(messages: map<Id, Message>, conversations: map<Id, Conversation>, entries: map<Id, Entry>, i: Id, m: Message)
    requires MessagesSound(messages, conversations, entries) && MessageSound(m, conversations, entries)
    ensures MessagesSound(messages[i := m], conversations, entries)
  {
  }

  lemma WriteMessageIndex(messages: map<Id, Message>, index: map<Key, Id>, i: Id, m: Message)
    requires MessageIndexExact(messages, index)
    requires if i in messages then messages[i].key == m.key else m.key !in index
    ensures MessageIndexExact(messages[i := m], index[m.key := i])
    ensures i in messages ==> index[m.key := i] == index
  {
  }

  lemma WriteMessageHeld(entries: map<Id, Entry>, messages: map<Id, Message>, index: map<Key, Id>, i: Id, m: Message)
    requires ConsumedHeld(entries, messages, index) && MessageIndexExact(messages, index)
    requires if i in messages then messages[i].key == m.key && (messages[i].entry.Some? ==> m.entry == messages[i].entry)
             else m.key !in index
    ensures ConsumedHeld(entries, messages[i := m], index[m.key := i])
  {
  }

  lemma WriteMessageExplained(
    entries: map<Id, Entry>, messages: map<Id, Message>, index: map<Key, Id>, conversations: map<Id, Conversation>, i: Id, m: Message)
    requires ReleasedExplained(entries, messages, index, conversations)
    requires if i in messages then
               m.key == messages[i].key && m.conversation == messages[i].conversation
               && (m.status == messages[i].status || m.status == Failed) && m.key in index && index[m.key] == i
             else m.key !in index
    ensures ReleasedExplained(entries, messages[i := m], index[m.key := i], conversations)
  {
  }

  lemma WriteMessageReplies(replies: map<Id, Reply>, replyIndex: map<Id, Id>, messages: map<Id, Message>, i: Id, m: Message)
    requires RepliesSound(replies, replyIndex, messages) && m.status != Completed
    requires i in messages ==> messages[i].status != Completed
    ensures RepliesSound(replies, replyIndex, messages[i := m])
  {
    forall r | r in replies ensures ReplySound(r, replies, replyIndex, messages[i := m]) {
      assert ReplySound(r, replies, replyIndex, messages);
    }
  }

  lemma EntriesSeenByMessages(messages: map<Id, Message>, conversations: map<Id, Conversation>, entries: map<Id, Entry>, entries': map<Id, Entry>)
    requires MessagesSound(messages, conversations, entries)
    requires forall i | i in messages && messages[i].entry.Some? ::
      && messages[i].entry.value in entries'
      && entries'[messages[i].entry.value].key == entries[messages[i].entry.value].key
      && entries'[messages[i].entry.value].status == entries[messages[i].entry.value].status
    ensures MessagesSound(messages, conversations, entries')
  {
    forall i | i in messages ensures MessageSound(messages[i], conversations, entries') {
      assert MessageSound(messages[i], conversations, entries);
    }
  }

  lemma ConversationsGrow(messages: map<Id, Message>, conversations: map<Id, Conversation>, entries: map<Id, Entry>, c: Id, conversation: Conversation)
    requires MessagesSound(messages, conversations, entries) && c !in conversations
    ensures MessagesSound(messages, conversations[c := conversation], entries)
  {
    forall i | i in messages ensures MessageSound(messages[i], conversations[c := conversation], entries) {
      assert MessageSound(messages[i], conversations, entries);
    }
  }

  lemma ConversationsGrowExplained(
    entries: map<Id, Entry>, messages: map<Id, Message>, index: map<Key, Id>, conversations: map<Id, Conversation>, c: Id, conversation: Conversation)
    requires ReleasedExplained(entries, messages, index, conversations) && c !in conversations
    ensures ReleasedExplained(entries, messages, index, conversations[c := conversation])
  {
  }

  /** An entry is held by one message at most. */
  lemma HolderUnique(s: Store, i: Id, j: Id)
    requires StoreInv(s) && i in s.messages && j in s.messages
    requires s.messages[i].entry.Some? && s.messages[i].entry == s.messages[j].entry
    ensures i == j
  {
    assert MessageSound(s.messages[i], s.conversations, s.ledger.entries);
    assert MessageSound(s.messages[j], s.conversations, s.ledger.entries);
    assert s.messages[i].key == s.messages[j].key;
  }

  lemma AllIdsFresh(s: Store)
    requires IdsIssued(s)
    ensures s.nextId !in s.ledger.entries && s.nextId !in s.conversations && s.nextId !in s.messages && s.nextId !in s.replies
    ensures IdsIssued(s.(nextId := s.nextId + 1))
    ensures Issued(s.ledger.entries.Keys + {s.nextId}, s.nextId + 1)
    ensures Issued(s.conversations.Keys + {s.nextId}, s.nextId + 1)
    ensures Issued(s.messages.Keys + {s.nextId}, s.nextId + 1)
    ensures Issued(s.replies.Keys + {s.nextId}, s.nextId + 1)
  {
  }

  lemma SoundAt(s: Store, i: Id)
    requires StoreInv(s) && i in s.messages
    ensures MessageSound(s.messages[i], s.conversations, s.ledger.entries)
  {
  }

  lemma IndexedAt(s: Store, i: Id)
    requires StoreInv(s) && i in s.messages
    ensures s.messages[i].key in s.messageIndex && s.messageIndex[s.messages[i].key] == i
  {
  }

  lemma EntryIndexedAt(s: Store, e: Id)
    requires StoreInv(s) && e in s.ledger.entries
    ensures s.ledger.entries[e].key in s.ledger.entryIndex && s.ledger.entryIndex[s.ledger.entries[e].key] == e
  {
  }

  // ---------------------------------------------------------------- transactions

  lemma OpenConversationKeeps(s: Store, conversation: Conversation)
    requires StoreInv(s)
    ensures StoreInv(OpenConversation(s, conversation)) && Evolves(s, OpenConversation(s, conversation))
  {
    hide MessagesSound, MessageIndexExact, ConsumedHeld, ReleasedExplained, RepliesSound, LedgerInv, Issued, TokensIssued, EntriesEvolve, MessagesEvolve, Grows;
    AllIdsFresh(s);
    NothingEvolves(s);
    ConversationsGrow(s.messages, s.conversations, s.ledger.entries, s.nextId, conversation);
    ConversationsGrowExplained(s.ledger.entries, s.messages, s.messageIndex, s.conversations, s.nextId, conversation);
    GrowOne(s.conversations, s.nextId, conversation);
    assert OpenConversation(s, conversation).conversations.Keys == s.conversations.Keys + {s.nextId};
  }

  lemma SubmitKeeps(s: Store, key: Key, conversation: Id, author: Id, content: string)
    requires StoreInv(s)
    ensures StoreInv(Submit(s, key, conversation, author, content).0)
    ensures Evolves(s, Submit(s, key, conversation, author, content).0)
  {
    hide MessagesSound, ConsumedHeld, ReleasedExplained, RepliesSound, LedgerInv, Issued, TokensIssued, EntriesEvolve, MessagesEvolve, Grows;
    var (s', r) := Submit(s, key, conversation, author, content);
    AllIdsFresh(s);
    NothingEvolves(s);
    if r.Submitted? && !r.replayed {
      var m := s'.messages[s.nextId];
      WriteMessageSound(s.messages, s.conversations, s.ledger.entries, s.nextId, m);
      WriteMessageIndex(s.messages, s.messageIndex, s.nextId, m);
      WriteMessageHeld(s.ledger.entries, s.messages, s.messageIndex, s.nextId, m);
      WriteMessageExplained(s.ledger.entries, s.messages, s.messageIndex, s.conversations, s.nextId, m);
      WriteMessageReplies(s.replies, s.replyIndex, s.messages, s.nextId, m);
      WriteTokens(s.messages, s.nextId, s.nextId, m, s'.nextId);
      EvolveMessage(s.messages, s.nextId, s.nextId, m);
      GrowOne(s.messageIndex, key, s.nextId);
      assert s'.messages.Keys == s.messages.Keys + {s.nextId};
    }
  }

  lemma NewEntryInvisible(s: Store, e: Entry)
    requires StoreInv(s) && e.status == Reserved
    ensures MessagesSound(s.messages, s.conversations, s.ledger.entries[s.nextId := e])
    ensures ConsumedHeld(s.ledger.entries[s.nextId := e], s.messages, s.messageIndex)
    ensures ReleasedExplained(s.ledger.entries[s.nextId := e], s.messages, s.messageIndex, s.conversations)
  {
    forall i | i in s.messages && s.messages[i].entry.Some? ensures s.messages[i].entry.value in s.ledger.entries {
      assert MessageSound(s.messages[i], s.conversations, s.ledger.entries);
    }
    EntriesSeenByMessages(s.messages, s.conversations, s.ledger.entries, s.ledger.entries[s.nextId := e]);
  }

  lemma ReserveCreditKeeps(s: Store, key: Key, access: Access, now: Time)
    requires StoreInv(s)
    ensures StoreInv(ReserveCredit(s, key, access, now).0)
    ensures Evolves(s, ReserveCredit(s, key, access, now).0)
  {
    hide MessagesSound, MessageIndexExact, ConsumedHeld, ReleasedExplained, RepliesSound, LedgerInv, Issued, TokensIssued, EntriesEvolve, MessagesEvolve, Grows;
    var (s', r) := ReserveCredit(s, key, access, now);
    AllIdsFresh(s);
    NothingEvolves(s);
    if r.Reservation? && !r.snapshot.replayed {
      LedgerLemmas.ReserveKeeps(s.ledger, s.nextId, key, access, now);
      var e := s'.ledger.entries[s.nextId];
      assert s'.ledger.entries == s.ledger.entries[s.nextId := e];
      NewEntryInvisible(s, e);
      EvolveEntry(s.ledger.entries, s.nextId, e);
      assert s'.ledger.entries.Keys == s.ledger.entries.Keys + {s.nextId};
    }
  }

  /** Writing a row that is not completed: the part shared by a claim and by a failure. */
  lemma WriteOpenRow(s: Store, i: Id, m: Message, nextId: Id)
    requires StoreInv(s) && i in s.messages && s.messages[i].status != Completed && m.status != Completed
    requires m.key == s.messages[i].key && (s.messages[i].entry.Some? ==> m.entry == s.messages[i].entry)
    requires m.conversation == s.messages[i].conversation && (m.status == s.messages[i].status || m.status == Failed)
    requires s.nextId <= nextId && (m.token.Some? ==> m.token.value < nextId)
    ensures MessageIndexExact(s.messages[i := m], s.messageIndex)
    ensures ConsumedHeld(s.ledger.entries, s.messages[i := m], s.messageIndex)
    ensures ReleasedExplained(s.ledger.entries, s.messages[i := m], s.messageIndex, s.conversations)
    ensures RepliesSound(s.replies, s.replyIndex, s.messages[i := m])
    ensures TokensIssued(s.messages[i := m], nextId)
    ensures s.messages[i := m].Keys == s.messages.Keys
  {
    hide MessagesSound, MessageIndexExact, ConsumedHeld, ReleasedExplained, RepliesSound, LedgerInv, Issued, TokensIssued;
    WriteMessageIndex(s.messages, s.messageIndex, i, m);
    WriteMessageHeld(s.ledger.entries, s.messages, s.messageIndex, i, m);
    IndexedAt(s, i);
    WriteMessageExplained(s.ledger.entries, s.messages, s.messageIndex, s.conversations, i, m);
    WriteMessageReplies(s.replies, s.replyIndex, s.messages, i, m);
    WriteTokens(s.messages, s.nextId, i, m, nextId);
  }

  lemma ClaimKeeps(s: Store, message: Id, snapshot: Snapshot, now: Time, lease: int)
    requires StoreInv(s)
    requires Claim(s, message, snapshot, now, lease).1.Claimed? ==>
      && snapshot.entry in s.ledger.entries
      && s.ledger.entries[snapshot.entry].key == s.messages[message].key
      && s.ledger.entries[snapshot.entry].status == Reserved
    ensures StoreInv(Claim(s, message, snapshot, now, lease).0)
    ensures Evolves(s, Claim(s, message, snapshot, now, lease).0)
  {
    hide MessagesSound, MessageIndexExact, ConsumedHeld, ReleasedExplained, RepliesSound, LedgerInv, Issued, TokensIssued, EntriesEvolve, MessagesEvolve, Grows;
    var (s', r) := Claim(s, message, snapshot, now, lease);
    AllIdsFresh(s);
    NothingEvolves(s);
    if r.Claimed? {
      var m := s'.messages[message];
      SoundAt(s, message);
      WriteMessageSound(s.messages, s.conversations, s.ledger.entries, message, m);
      WriteOpenRow(s, message, m, s'.nextId);
      EvolveMessage(s.messages, s.nextId, message, m);
    }
  }

  lemma MarkFailedKeeps(s: Store, message: Id, code: ErrorCode, now: Time)
    requires StoreInv(s)
    ensures StoreInv(MarkFailed(s, message, code, now)) && Evolves(s, MarkFailed(s, message, code, now))
  {
    hide MessagesSound, MessageIndexExact, ConsumedHeld, ReleasedExplained, RepliesSound, LedgerInv, Issued, TokensIssued, EntriesEvolve, MessagesEvolve, Grows;
    var s' := MarkFailed(s, message, code, now);
    NothingEvolves(s);
    if message in s.messages && s.messages[message].status == Pending && s.messages[message].entry.None? {
      var m := s'.messages[message];
      SoundAt(s, message);
      WriteMessageSound(s.messages, s.conversations, s.ledger.entries, message, m);
      WriteOpenRow(s, message, m, s'.nextId);
      EvolveMessage(s.messages, s.nextId, message, m);
    }
  }

  /** The entry's message belongs to a conversation that cannot be grounded. */
  ghost predicate Groundless(s: Store, entry: Id) {
    && entry in s.ledger.entries
    && s.ledger.entries[entry].key in s.messageIndex
    && s.messageIndex[s.ledger.entries[entry].key] in s.messages
    && Ungroundable(s.messages[s.messageIndex[s.ledger.entries[entry].key]].conversation, s.conversations)
  }

  lemma ReleasedEntryInvisible(s: Store, entry: Id, e: Entry)
    requires StoreInv(s) && Groundless(s, entry) && s.ledger.entries[entry].status == Reserved
    requires e.status == Released && e.key == s.ledger.entries[entry].key
    ensures MessagesSound(s.messages, s.conversations, s.ledger.entries[entry := e])
    ensures ConsumedHeld(s.ledger.entries[entry := e], s.messages, s.messageIndex)
    ensures ReleasedExplained(s.ledger.entries[entry := e], s.messages, s.messageIndex, s.conversations)
  {
    forall i | i in s.messages && s.messages[i].entry.Some?
      ensures s.messages[i].entry.value in s.ledger.entries && s.messages[i].entry.value != entry
    {
      SoundAt(s, i);
      IndexedAt(s, i);
    }
    EntriesSeenByMessages(s.messages, s.conversations, s.ledger.entries, s.ledger.entries[entry := e]);
  }

  lemma ReleaseCreditKeeps(s: Store, entry: Id, code: ErrorCode, now: Time)
    requires StoreInv(s)
    requires entry in s.ledger.entries && s.ledger.entries[entry].status == Reserved ==> Groundless(s, entry)
    ensures StoreInv(ReleaseCredit(s, entry, code, now).0)
    ensures Evolves(s, ReleaseCredit(s, entry, code, now).0)
  {
    hide MessagesSound, MessageIndexExact, ConsumedHeld, ReleasedExplained, RepliesSound, Issued, TokensIssued, EntriesEvolve, MessagesEvolve, Grows,
      IndexExact, EntriesSound, CountersExact, WithinLimits, AdjustmentsChained, Groundless;
    var (s', r) := ReleaseCredit(s, entry, code, now);
    NothingEvolves(s);
    LedgerLemmas.ReleaseKeeps(s.ledger, entry, code, now);
    if entry in s.ledger.entries && s.ledger.entries[entry].status == Reserved && Locked(s.ledger, entry) {
      LedgerLemmas.ReservedMeansCounted(s.ledger, entry);
      ReleasedEntryInvisible(s, entry, s'.ledger.entries[entry]);
      EvolveEntry(s.ledger.entries, entry, s'.ledger.entries[entry]);
      assert s'.ledger.entries.Keys == s.ledger.entries.Keys;
    }
  }

  /** A message and the entry it holds change status together. */
  lemma SettleHeldEntry(s: Store, i: Id, m: Message, e: Entry)
    requires StoreInv(s) && i in s.messages && s.messages[i].entry.Some? && m.entry == s.messages[i].entry
    requires m.key == s.messages[i].key && m.conversation == s.messages[i].conversation && RowShape(m)
    requires e.key == m.key && e.status == LedgerStatusFor(m.status)
    ensures MessagesSound(s.messages[i := m], s.conversations, s.ledger.entries[m.entry.value := e])
  {
    hide MessageIndexExact, ConsumedHeld, ReleasedExplained, RepliesSound, LedgerInv, Issued, TokensIssued;
    var messages' := s.messages[i := m];
    var entries' := s.ledger.entries[m.entry.value := e];
    forall j | j in messages' ensures MessageSound(messages'[j], s.conversations, entries') {
      SoundAt(s, i);
      if j != i {
        SoundAt(s, j);
        if s.messages[j].entry == m.entry {
          HolderUnique(s, i, j);
        }
      }
    }
  }

  lemma SettleHeld(s: Store, i: Id, m: Message, e: Entry)
    requires StoreInv(s) && i in s.messages && s.messages[i].entry.Some? && m.entry == s.messages[i].entry
    requires m.key == s.messages[i].key && e.key == m.key && m.token.None?
    ensures MessageIndexExact(s.messages[i := m], s.messageIndex)
    ensures ConsumedHeld(s.ledger.entries[m.entry.value := e], s.messages[i := m], s.messageIndex)
    ensures TokensIssued(s.messages[i := m], s.nextId)
  {
    hide MessagesSound, ReleasedExplained, RepliesSound, LedgerInv, Issued, TokensIssued;
    WriteMessageIndex(s.messages, s.messageIndex, i, m);
    WriteMessageHeld(s.ledger.entries, s.messages, s.messageIndex, i, m);
    WriteTokens(s.messages, s.nextId, i, m, s.nextId);
  }

  lemma SettleExplained(s: Store, i: Id, m: Message, entry: Id, e: Entry)
    requires StoreInv(s) && i in s.messages && entry in s.ledger.entries
    requires m.key == s.messages[i].key && e.key == m.key && s.ledger.entries[entry].key == m.key
    requires e.status == Released ==> m.status == Failed
    ensures ReleasedExplained(s.ledger.entries[entry := e], s.messages[i := m], s.messageIndex, s.conversations)
  {
    hide MessagesSound, ConsumedHeld, RepliesSound, LedgerInv, Issued, TokensIssued, IdsIssued;
    var entries' := s.ledger.entries[entry := e];
    IndexedAt(s, i);
    EntryIndexedAt(s, entry);
    forall f | f in entries' && entries'[f].status == Released
      ensures f != entry ==> entries'[f].key != m.key
    {
      if f != entry {
        EntryIndexedAt(s, f);
      }
    }
  }

  /** The holder's row, its entry and the counter, as the settling transactions find them. */
  lemma HolderFacts(s: Store, i: Id)
    requires StoreInv(s) && i in s.messages && s.messages[i].status == Pending && s.messages[i].token.Some?
    ensures s.messages[i].entry.Some? && Locked(s.ledger, s.messages[i].entry.value)
    ensures s.ledger.entries[s.messages[i].entry.value].status == Reserved
    ensures s.ledger.entries[s.messages[i].entry.value].key == s.messages[i].key
    ensures s.ledger.accounts[s.ledger.entries[s.messages[i].entry.value].account].reserved >= 1
    ensures s.messages[i].conversation in s.conversations
    ensures i !in s.replyIndex
  {
    hide MessagesSound, MessageIndexExact, ConsumedHeld, ReleasedExplained, Issued, TokensIssued, CountersExact;
    SoundAt(s, i);
    LedgerLemmas.ReservedMeansCounted(s.ledger, s.messages[i].entry.value);
  }

  lemma FailClaimKeeps(s: Store, message: Id, entry: Id, token: Id, code: ErrorCode, now: Time)
    requires StoreInv(s)
    ensures StoreInv(FailClaim(s, message, entry, token, code, now).0)
    ensures Evolves(s, FailClaim(s, message, entry, token, code, now).0)
  {
    hide MessagesSound, MessageIndexExact, ConsumedHeld, ReleasedExplained, RepliesSound, LedgerInv, Issued, TokensIssued, EntriesEvolve, MessagesEvolve, Grows;
    var (s', r) := FailClaim(s, message, entry, token, code, now);
    NothingEvolves(s);
    if r.FailSettled? {
      HolderFacts(s, message);
      var m := s'.messages[message];
      var e := s'.ledger.entries[entry];
      LedgerLemmas.MarkReleasedKeeps(s.ledger, entry, code, now);
      SettleHeldEntry(s, message, m, e);
      SettleHeld(s, message, m, e);
      SettleExplained(s, message, m, entry, e);
      WriteMessageReplies(s.replies, s.replyIndex, s.messages, message, m);
      EvolveMessage(s.messages, s.nextId, message, m);
      EvolveEntry(s.ledger.entries, entry, e);
      assert s'.ledger.entries.Keys == s.ledger.entries.Keys && s'.messages.Keys == s.messages.Keys;
    }
  }

  lemma InsertReply(s: Store, i: Id, m: Message, reply: Reply)
    requires IdsIssued(s) && RepliesSound(s.replies, s.replyIndex, s.messages) && i in s.messages && i !in s.replyIndex
    requires m.status == Completed && m.entry == Some(reply.entry)
    requires reply.replyTo == i && reply.conversation == m.conversation && reply.business == m.key.business
    ensures RepliesSound(s.replies[s.nextId := reply], s.replyIndex[i := s.nextId], s.messages[i := m])
  {
    var replies' := s.replies[s.nextId := reply];
    forall r | r in replies'
      ensures ReplySound(r, replies', s.replyIndex[i := s.nextId], s.messages[i := m])
    {
      if r != s.nextId {
        assert ReplySound(r, s.replies, s.replyIndex, s.messages);
      }
    }
  }

  lemma CompleteClaimKeeps(s: Store, message: Id, entry: Id, token: Id, text: string, accepted: bool, now: Time)
    requires StoreInv(s)
    ensures StoreInv(CompleteClaim(s, message, entry, token, text, accepted, now).0)
    ensures Evolves(s, CompleteClaim(s, message, entry, token, text, accepted, now).0)
  {
    hide MessagesSound, MessageIndexExact, ConsumedHeld, ReleasedExplained, RepliesSound, LedgerInv, Issued, TokensIssued, EntriesEvolve, MessagesEvolve, Grows;
    var (s', r) := CompleteClaim(s, message, entry, token, text, accepted, now);
    AllIdsFresh(s);
    NothingEvolves(s);
    if r.CompletedNow? {
      HolderFacts(s, message);
      var m := s'.messages[message];
      var e := s'.ledger.entries[entry];
      LedgerLemmas.MarkConsumedKeeps(s.ledger, entry, now);
      SettleHeldEntry(s, message, m, e);
      SettleHeld(s, message, m, e);
      SettleExplained(s, message, m, entry, e);
      WriteTokens(s.messages, s.nextId, message, m, s'.nextId);
      InsertReply(s, message, m, s'.replies[s.nextId]);
      EvolveMessage(s.messages, s.nextId, message, m);
      EvolveEntry(s.ledger.entries, entry, e);
      GrowOne(s.replies, s.nextId, s'.replies[s.nextId]);
      GrowOne(s.replyIndex, message, s.nextId);
      assert s'.ledger.entries.Keys == s.ledger.entries.Keys && s'.messages.Keys == s.messages.Keys;
      assert s'.replies.Keys == s.replies.Keys + {s.nextId};
    }
  }

  /** An adjustment touches neither the entries nor the conversation tables. */
  lemma AdjustStoreKeeps(s: Store, actorValid: bool, businessKnown: bool, key: Key, delta: int, reason: AdjustmentReason, access: Access)
    requires StoreInv(s)
    ensures StoreInv(s.(ledger := Adjust(s.ledger, actorValid, businessKnown, key, delta, reason, access).0))
    ensures Evolves(s, s.(ledger := Adjust(s.ledger, actorValid, businessKnown, key, delta, reason, access).0))
  {
    hide MessagesSound, MessageIndexExact, ConsumedHeld, ReleasedExplained, RepliesSound, LedgerInv, Issued, TokensIssued, EntriesEvolve, MessagesEvolve, Grows;
    NothingEvolves(s);
    LedgerLemmas.AdjustKeeps(s.ledger, actorValid, businessKnown, key, delta, reason, access);
  }
}
