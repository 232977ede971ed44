/** What each transaction of a request decides, and the rows it leaves, said of the tables it finds. */
module RequestDecisions {
  import opened CreditModel
  import opened CreditLedger
  import opened LedgerLemmas
  import opened Execution
  import opened ExecutionLemmas
  import opened ExecutionRuns
  import opened RunLemmas
  import opened RunTheorems
  import opened StrandedCredits

  // ---------------------------------------------------------------- the ledger

  /** The snapshot repeats the entry's row and its account's counters as they are in these tables. */
  predicate Shows(l: Ledger, snapshot: Snapshot, id: Id, replayed: bool) {
    && id in l.entries && l.entries[id].account in l.accounts
    && var (entry, account) := (l.entries[id], l.accounts[l.entries[id].account]);
    && snapshot.entry == id && snapshot.account == entry.account && snapshot.status == entry.status
    && snapshot.limit == account.limit && snapshot.reserved == account.reserved && snapshot.consumed == account.consumed
    && (account.limit == None ==> snapshot.remaining == None)
    && (account.limit.Some? ==> snapshot.remaining == Some(account.limit.value - account.reserved - account.consumed))
    && snapshot.replayed == replayed
  }

  /** A known key is answered from its entry; a new one, where it can be reserved, adds one entry and counts it once. */
  lemma ReserveDecides(l: Ledger, id: Id, key: Key, access: Access, now: Time)
    requires LedgerInv(l) && id !in l.entries
    ensures var (l', r) := Reserve(l, id, key, access, now);
      && (key in l.entryIndex ==> l' == l && r.Reservation? && Shows(l, r.snapshot, l.entryIndex[key], true))
      && (key !in l.entryIndex && CanReserve(l, key, access) ==>
            var account := access.AccountOf(key.business);
            var (reserved, consumed) := if account in l.accounts then (l.accounts[account].reserved, l.accounts[account].consumed) else (0, 0);
            var limit := if access.base.Some? then Some(access.base.value + DeltaTotal(l.adjustments, account)) else None;
            && l' == l.(accounts := l.accounts[account := Account(limit, reserved + 1, consumed)],
                        entries := l.entries[id := Entry(key, account, Reserved, now, None, None, None)],
                        entryIndex := l.entryIndex[key := id])
            && r.Reservation? && Shows(l', r.snapshot, id, false))
  {
    hide CountersExact, WithinLimits, AdjustmentsChained, DeltaTotal;
  }

  lemma SettledShows(l: Ledger, id: Id, replayed: bool)
    requires Locked(l, id)
    ensures Settled(l, id, replayed).Settlement? && Shows(l, Settled(l, id, replayed).snapshot, id, replayed)
  {
  }

  /** In a ledger that keeps its invariant every entry and its account can be locked. */
  lemma EntryLocks(l: Ledger, id: Id)
    requires LedgerInv(l) && id in l.entries
    ensures Locked(l, id) && (l.entries[id].status == Reserved ==> l.accounts[l.entries[id].account].reserved >= 1)
  {
    if l.entries[id].status == Reserved {
      ReservedMeansCounted(l, id);
    }
  }

  /** Consuming settles a reserved entry, repeats its answer for a consumed one, and refuses the rest. */
  lemma ConsumeDecides(l: Ledger, id: Id, now: Time)
    requires LedgerInv(l)
    ensures var (l', r) := Consume(l, id, now);
      && (id !in l.entries ==> l' == l && r == ReservationNotFound)
      && (id in l.entries && l.entries[id].status == Released ==> l' == l && r == StateConflict)
      && (id in l.entries && l.entries[id].status == Consumed ==> l' == l && r.Settlement? && Shows(l, r.snapshot, id, true))
      && (id in l.entries && l.entries[id].status == Reserved ==>
            var entry := l.entries[id];
            && entry.account in l.accounts
            && var account := l.accounts[entry.account];
            && l' == l.(accounts := l.accounts[entry.account := Account(account.limit, account.reserved - 1, account.consumed + 1)],
                        entries := l.entries[id := Entry(entry.key, entry.account, Consumed, entry.reservedAt, Some(now), None, None)])
            && r.Settlement? && Shows(l', r.snapshot, id, false))
  {
    hide LedgerInv, Shows, Settled;
    if id in l.entries {
      EntryLocks(l, id);
      SettledShows(l, id, true);
      if l.entries[id].status == Reserved {
        SettledShows(MarkConsumed(l, id, now), id, false);
      }
    }
  }

  /** Releasing settles a reserved entry with its reason, repeats its answer for a released one, and refuses the rest. */
  lemma ReleaseDecides(l: Ledger, id: Id, reason: ErrorCode, now: Time)
    requires LedgerInv(l)
    ensures var (l', r) := Release(l, id, reason, now);
      && (id !in l.entries ==> l' == l && r == ReservationNotFound)
      && (id in l.entries && l.entries[id].status == Consumed ==> l' == l && r == StateConflict)
      && (id in l.entries && l.entries[id].status == Released ==> l' == l && r.Settlement? && Shows(l, r.snapshot, id, true))
      && (id in l.entries && l.entries[id].status == Reserved ==>
            var entry := l.entries[id];
            && entry.account in l.accounts
            && var account := l.accounts[entry.account];
            && l' == l.(accounts := l.accounts[entry.account := Account(account.limit, account.reserved - 1, account.consumed)],
                        entries := l.entries[id := Entry(entry.key, entry.account, Released, entry.reservedAt, None, Some(now), Some(reason))])
            && r.Settlement? && Shows(l', r.snapshot, id, false))
  {
    hide LedgerInv, Shows, Settled;
    if id in l.entries {
      EntryLocks(l, id);
      SettledShows(l, id, true);
      if l.entries[id].status == Reserved {
        SettledShows(MarkReleased(l, id, reason, now), id, false);
      }
    }
  }

  // ---------------------------------------------------------------- the message

  /** Before a reservation only a pending message that holds nothing is marked, with the code and the time. */
  lemma MarkDecides(s: Store, m: Id, code: ErrorCode, now: Time)
    ensures MarkFailed(s, m, code, now)
         == if m in s.messages && s.messages[m].status == Pending && s.messages[m].entry == None then
              var row := s.messages[m];
              s.(messages := s.messages[m :=
                Message(row.key, row.conversation, row.author, row.content, Failed, None, None, None, Some(now), Some(code))])
            else s
  {
  }

  /**
    A claim of a grounded message tells what has become of it, waits for a live lease, and otherwise takes the entry
    with a fresh token until the lease ends. Without grounding it fails and changes nothing.
    */
  lemma ClaimDecides(s: Store, m: Id, snapshot: Snapshot, now: Time, lease: int)
    requires StoreInv(s) && Paired(s, m, snapshot.entry)
    requires snapshot.status != Reserved ==> s.ledger.entries[snapshot.entry].status == snapshot.status
    ensures var row := s.messages[m];
      Claim(s, m, snapshot, now, lease)
      == if Ungrounded(s, m) then (s, ClaimIntegrity)
         else if row.status == Completed && m in s.replyIndex then (s, ClaimCompleted(s.replyIndex[m]))
         else if row.status == Failed && row.error.Some? then (s, ClaimFailed(row.error.value))
         else if row.leaseUntil.Some? && row.leaseUntil.value > now then (s, ClaimInProgress)
         else (s.(messages := s.messages[m := Message(row.key, row.conversation, row.author, row.content, Pending,
                    Some(snapshot.entry), Some(s.nextId), Some(now + lease), None, None)], nextId := s.nextId + 1), Claimed(s.nextId))
  {
    hide RepliesSound, IdsIssued, CountersExact, WithinLimits, AdjustmentsChained;
    SoundAt(s, m);
    IndexedAt(s, m);
    EntryIndexedAt(s, snapshot.entry);
    if s.messages[m].entry.Some? {
      EntryIndexedAt(s, s.messages[m].entry.value);
    }
    ClaimReplied(s, m);
    hide MessagesSound, LedgerInv;
  }

  lemma ClaimReplied(s: Store, m: Id)
    requires StoreInv(s) && m in s.messages
    ensures s.messages[m].status == Completed ==> m in s.replyIndex
  {
    CompletedHasReply(s, m);
  }

  /** Where a completion that is too late leads: to the answer, the error or the newer holder of the message. */
  lemma LateCompletionDecides(w: World, c: Id, m: Id, e: Id, t: Id, text: string, accepted: bool)
    requires WorldInv(w) && PhaseOf(w, c) == Completing(m, e, t, text) && !Current(w.store, m, t)
    ensures var (row, w') := (w.store.messages[m], Step(w, TakeComplete(c, accepted)));
      && w'.store == w.store
      && (row.status == Completed ==> m in w.store.replyIndex && PhaseOf(w', c) == Done(Answered(w.store.replyIndex[m])))
      && (row.status == Failed ==> row.error.Some? && PhaseOf(w', c) == Done(Rejected(row.error.value)))
      && (row.status == Pending ==> PhaseOf(w', c) == Done(StillRunning))
  {
    hide WorldInv, StoreInv, Evolves;
    PhaseSoundAt(w, c);
    StoreInvOf(w);
    SoundAt(w.store, m);
    CompletedHasReply(w.store, m);
    EntryHeld(w.store, e);
  }

  lemma EntryHeld(s: Store, e: Id)
    requires StoreInv(s) && e in s.ledger.entries
    ensures Locked(s.ledger, e)
  {
  }

  /** Where a claim leads a request that does not get the lease. */
  lemma LateClaimDecides(w: World, c: Id, m: Id, snapshot: Snapshot, now: Time)
    requires WorldInv(w) && PhaseOf(w, c) == Claiming(m, snapshot, now) && !Ungrounded(w.store, m)
    ensures var (row, w') := (w.store.messages[m], Step(w, TakeClaim(c)));
      && (row.status == Completed ==> w'.store == w.store && m in w.store.replyIndex && PhaseOf(w', c) == Done(Answered(w.store.replyIndex[m])))
      && (row.status == Failed ==> w'.store == w.store && row.error.Some? && PhaseOf(w', c) == Done(Rejected(row.error.value)))
      && (row.status == Pending && LeaseActive(row, now) ==> w'.store == w.store && PhaseOf(w', c) == Done(StillRunning))
      && (row.status == Pending && !LeaseActive(row, now) ==>
            && PhaseOf(w', c) == Holding(m, snapshot.entry, w.store.nextId)
            && w'.calls == w.calls[w.store.nextId := Call(m, now, None, None)])
  {
    hide WorldInv, StoreInv, Evolves;
    PhaseSoundAt(w, c);
    StoreInvOf(w);
    SoundAt(w.store, m);
    CompletedHasReply(w.store, m);
    ClaimDecides(w.store, m, snapshot, now, LeaseDuration(w.timeout));
    hide Claim;
  }
}
