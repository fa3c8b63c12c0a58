// At most one charge per idempotency key (src/api/reseller-api.ts:483-530,1126-1332,1549-1608, and the store they use).
module SagaKeys {
  import opened Common
  import opened IdempotencyStore
  import opened ResellerDb
  import opened ResellerSaga
  import opened SagaServices

  // ---------------------------------------------------------------- who has a key

  /**
   * The request went past the prelude with this key and has not given it back or recorded an answer. A request that crashed
   * before it was charged holds nothing any more, although its claim is still in the store.
   */
  ghost predicate Holds(s: State, id: RequestId, key: Key) {
    && id in s.requests && s.requests[id].key == Some(key)
    && !s.requests[id].phase.Arrived? && !s.requests[id].phase.Finished?
    && (s.requests[id].phase.Crashed? ==> s.requests[id].charge.Some?)
  }

  ghost predicate Paid(s: State, id: RequestId, key: Key) {
    id in s.requests && s.requests[id].key == Some(key) && s.requests[id].charge.Some?
  }

  /** The request was charged, and told so. */
  ghost predicate WasServed(s: State, id: RequestId, key: Key) {
    Paid(s, id, key) && s.requests[id].phase == Finished(Served(s.requests[id].charge.value))
  }

  /** The answer of request `id` is what the store replays for its key. */
  ghost predicate Recorded(s: State, id: RequestId, key: Key) {
    && WasServed(s, id, key)
    && key in s.records && s.records[key].Completed?
    && s.records[key].hash == s.requests[id].hash
    && s.records[key].status == 200 && s.records[key].response == s.requests[id].charge.value
  }

  ghost predicate ChargeFitsPhase(r: Request) {
    && (r.charge.Some? ==>
          r.phase == Booked(r.charge.value) || r.phase == Finished(Served(r.charge.value)) || r.phase == Crashed(None))
    && (r.phase.Booked? ==> r.charge == Some(r.phase.service))
  }

  // ---------------------------------------------------------------- keys that cannot be charged any more

  /** A renewal of the service may still write back a row with room for an address. */
  predicate HoldsRoom(r: Request, service: ServiceId) {
    && r.job.Renew? && r.job.target == service
    && ((r.phase.Loaded? && r.phase.snapshot.extraIpv4 < MAX_EXTRA_IPV4)
        || (r.phase.Priced? && r.phase.snapshot.extraIpv4 < MAX_EXTRA_IPV4))
  }

  /** The service has all addresses it may have, and no renewal is about to forget one. */
  ghost predicate SoldOut(s: State, service: ServiceId) {
    && service in s.db.rows && s.db.rows[service].extraIpv4 >= MAX_EXTRA_IPV4
    && forall id :: id in s.requests ==> !HoldsRoom(s.requests[id], service)
  }

  /** The id is that of no service, and will not be given to one any more. */
  predicate NoService(s: State, service: ServiceId) {
    service !in s.db.rows && service < s.db.nextId
  }

  /** No purchase with this key will be charged any more: there is no such service, it is another reseller's, or it is sold out. */
  ghost predicate Sealed(s: State, key: Key) {
    && key.route.Ipv4Route?
    && var service := key.route.service;
    && (NoService(s, service) || (service in s.db.rows && s.db.rows[service].reseller != key.reseller) || SoldOut(s, service))
  }

  // ---------------------------------------------------------------- taking over

  /** The key's record is there, but has run out: its claim is as old as the lease, or its time to live is over. */
  predicate Lapsed(records: Records<ServiceId>, key: Key, now: nat) {
    key in records && !IdempotencyStore.Held(records, key, now)
  }

  /** A request is let in over a record that has run out, although one with the same key is still at work or was charged. */
  ghost predicate TakesOver(s: State, e: Step, key: Key)
    requires Enabled(s, e)
  {
    && e.Prelude? && s.requests[e.id].key == Some(key)
    && Lapsed(s.records, key, s.now) && exists a :: Holds(s, a, key) || Paid(s, a, key)
  }

  /** And the key can still be charged. */
  ghost predicate TakesOverOpen(s: State, e: Step, key: Key)
    requires Enabled(s, e)
  {
    TakesOver(s, e, key) && !Sealed(s, key)
  }

  ghost predicate NeverTakesOver(s: State, steps: seq<Step>, key: Key)
    requires CanRun(s, steps)
    decreases |steps|
  {
    steps == [] || (!TakesOver(s, steps[0], key) && NeverTakesOver(Next(s, steps[0]), steps[1..], key))
  }

  ghost predicate NeverTakesOverOpen(s: State, steps: seq<Step>, key: Key)
    requires CanRun(s, steps)
    decreases |steps|
  {
    steps == [] || (!TakesOverOpen(s, steps[0], key) && NeverTakesOverOpen(Next(s, steps[0]), steps[1..], key))
  }

  // ---------------------------------------------------------------- what is kept

  ghost predicate RequestsFit(s: State) {
    forall id :: id in s.requests ==>
      ChargeFitsPhase(s.requests[id]) && KeyFits(s.requests[id].key, s.requests[id].reseller, s.requests[id].job)
  }

  /** A key pays for one request. */
  ghost predicate OnePaid(s: State, key: Key) {
    forall a, b :: Paid(s, a, key) && Paid(s, b, key) ==> a == b
  }

  /** A replayed answer is that of a paid request with this key and this body. */
  ghost predicate GotAnswer(s: State, r: Request, key: Key) {
    r.phase.Finished? && r.phase.reply.Replayed? ==>
      && r.phase.reply.status == 200
      && exists a :: WasServed(s, a, key) && s.requests[a].hash == r.hash && s.requests[a].charge.value == r.phase.reply.service
  }

  ghost predicate AnswersFit(s: State, key: Key) {
    && (key in s.records && s.records[key].Completed? ==> exists a :: Recorded(s, a, key))
    && (forall id :: id in s.requests && s.requests[id].key == Some(key) ==> GotAnswer(s, s.requests[id], key))
  }

  /** One request holds the key, by its own record, and the paid one still holds it or its answer is on record. */
  ghost predicate Guarded(s: State, key: Key) {
    && (forall a, b :: Holds(s, a, key) && Holds(s, b, key) ==> a == b)
    && (forall a :: Holds(s, a, key) ==>
          key in s.records && s.records[key].Processing? && s.records[key].hash == s.requests[a].hash)
    && (forall a :: Paid(s, a, key) ==> Holds(s, a, key) || Recorded(s, a, key))
  }

  /** `taken`: the key was taken over, when it could not be charged any more. */
  ghost predicate KeyInv(s: State, key: Key, taken: bool) {
    && RequestsFit(s) && OnePaid(s, key) && AnswersFit(s, key)
    && if taken then Sealed(s, key) else Guarded(s, key)
  }

  // ---------------------------------------------------------------- a sealed key stays sealed

  lemma SoldOutStays(s: State, e: Step, service: ServiceId)
    requires ServicesInv(s) && Enabled(s, e) && SoldOut(s, service)
    ensures SoldOut(Next(s, e), service)
  {
    RowStays(s, e, service);
    OnlyItsRequest(s, e);
    if !e.Tick? && !e.Pay? {
      RoomIsRead(s, e, service);
    }
    hide Next, Enabled, ServicesInv;
  }

  /** Rows of services stay with their reseller, and without a stale renewal a count does not fall. */
  lemma RowStays(s: State, e: Step, service: ServiceId)
    requires ServicesInv(s) && Enabled(s, e) && service in s.db.rows
    ensures var s' := Next(s, e);
            && service in s'.db.rows && s'.db.rows[service].reseller == s.db.rows[service].reseller
            && (SoldOut(s, service) ==> s'.db.rows[service].extraIpv4 >= MAX_EXTRA_IPV4)
  {
    if e.Commit? {
      var r := s.requests[e.id];
      if r.phase.Priced? {
        assert SnapshotFits(s, r, r.phase.snapshot);
        assert SoldOut(s, service) ==> !HoldsRoom(r, service);
      }
      hide Charges, Charged, RowFits;
    } else {
      SharedFrame(s, e);
      hide Next, ServicesInv;
      if e.Pay? {
        PayKeepsRows(s, e);
      }
    }
  }

  lemma PayKeepsRows(s: State, e: Step)
    requires Enabled(s, e) && e.Pay?
    ensures Next(s, e).db.rows == s.db.rows && Next(s, e).db.nextId == s.db.nextId
  {
  }

  lemma RoomIsRead(s: State, e: Step, service: ServiceId)
    requires Enabled(s, e) && SoldOut(s, service) && !e.Tick? && !e.Pay?
    ensures e.id in Next(s, e).requests && !HoldsRoom(Next(s, e).requests[e.id], service)
  {
    if e.Check? || e.CheckFunds? {
      assert !HoldsRoom(s.requests[e.id], service);
      hide Afford, OverQuota;
    } else if e.Commit? {
      hide CreateTx, ExtraIpv4Tx, RenewTx;
    } else {
      hide Begun, Released, CompletedRecords, Registered, Committed, Afford, OverQuota, RenewedMs;
    }
  }

  lemma NoServiceStays(s: State, e: Step, service: ServiceId)
    requires ServicesInv(s) && Enabled(s, e) && NoService(s, service)
    ensures NoService(Next(s, e), service)
  {
    if e.Commit? {
      var r := s.requests[e.id];
      if r.phase.Priced? {
        assert SnapshotFits(s, r, r.phase.snapshot);
      }
      hide Charges, Charged, RowFits;
    } else {
      SharedFrame(s, e);
      hide Next, ServicesInv;
      if e.Pay? {
        PayKeepsRows(s, e);
      }
    }
  }

  /** What seals a key stays. */
  lemma SealedStays(s: State, e: Step, key: Key)
    requires ServicesInv(s) && Enabled(s, e) && Sealed(s, key)
    ensures Sealed(Next(s, e), key)
  {
    var service := key.route.service;
    if NoService(s, service) {
      NoServiceStays(s, e, service);
    } else {
      RowStays(s, e, service);
      if SoldOut(s, service) {
        SoldOutStays(s, e, service);
      }
    }
    hide Next, SoldOut, ServicesInv, Enabled;
  }

  /** A purchase with a sealed key is refused by its transaction. */
  lemma SealedIsNotCharged(s: State, e: Step, key: Key)
    requires Enabled(s, e) && e.Commit? && s.requests[e.id].key == Some(key) && Sealed(s, key)
    requires KeyFits(s.requests[e.id].key, s.requests[e.id].reseller, s.requests[e.id].job)
    ensures e.id in Next(s, e).requests && Next(s, e).requests[e.id].charge == s.requests[e.id].charge
  {
    hide CreateTx, RenewTx, Afford;
  }

  // ---------------------------------------------------------------- single steps

  predicate SameRecord(s: State, s': State, key: Key) {
    (key in s.records <==> key in s'.records) && (key in s.records ==> s'.records[key] == s.records[key])
  }

  /** Only request `id` changed. */
  predicate OnlyOne(s: State, s': State, id: RequestId) {
    && (forall a :: a in s.requests ==> a in s'.requests)
    && (forall a :: a in s'.requests && a != id ==> a in s.requests && s'.requests[a] == s.requests[a])
  }

  lemma AnswersStay(s: State, s': State, id: RequestId, key: Key)
    requires AnswersFit(s, key) && OnlyOne(s, s', id)
    requires WasServed(s, id, key) ==> WasServed(s', id, key) && s'.requests[id] == s.requests[id]
    requires id in s'.requests && s'.requests[id].key == Some(key) ==> GotAnswer(s', s'.requests[id], key)
    requires key in s'.records && s'.records[key].Completed? ==> exists a :: Recorded(s', a, key)
    ensures AnswersFit(s', key)
  {
    forall a | WasServed(s, a, key) ensures WasServed(s', a, key) && s'.requests[a] == s.requests[a] {
    }
    forall b | b in s'.requests && s'.requests[b].key == Some(key) ensures GotAnswer(s', s'.requests[b], key) {
      if b != id {
        assert GotAnswer(s, s.requests[b], key);
      }
    }
  }

  /** The record of the key stays, and the request moves on without being charged or becoming the holder. */
  lemma KeyStaysPut(s: State, s': State, id: RequestId, key: Key, taken: bool)
    requires KeyInv(s, key, taken) && RequestsFit(s') && (taken ==> Sealed(s', key))
    requires OnlyOne(s, s', id) && SameRecord(s, s', key)
    requires Holds(s', id, key) ==> Holds(s, id, key) && s'.requests[id].hash == s.requests[id].hash
    requires Paid(s', id, key) <==> Paid(s, id, key)
    requires Paid(s, id, key) && Holds(s, id, key) ==> Holds(s', id, key)
    requires WasServed(s, id, key) ==> s'.requests[id] == s.requests[id]
    requires id in s'.requests && s'.requests[id].key == Some(key) ==> GotAnswer(s', s'.requests[id], key)
    ensures KeyInv(s', key, taken)
  {
    assert forall a :: Holds(s', a, key) ==> Holds(s, a, key) && s'.requests[a].hash == s.requests[a].hash;
    assert forall a :: Paid(s', a, key) <==> Paid(s, a, key);
    assert forall a :: Recorded(s, a, key) ==> Recorded(s', a, key);
    assert forall a :: Paid(s, a, key) && Holds(s, a, key) ==> Holds(s', a, key);
    hide Holds, Paid, Recorded, RequestsFit, Sealed;
    AnswersStay(s, s', id, key);
    hide AnswersFit;
  }

  /** The transaction commits: the request holds its key, so nobody was paid for it before. */
  lemma KeyIsPaid(s: State, s': State, id: RequestId, key: Key)
    requires KeyInv(s, key, false) && RequestsFit(s') && OnlyOne(s, s', id) && SameRecord(s, s', key)
    requires id in s.requests && id in s'.requests && s'.requests[id].key == s.requests[id].key == Some(key)
    requires s'.requests[id].hash == s.requests[id].hash
    requires s.requests[id].charge.None? && Running(s.requests[id].phase)
    requires s'.requests[id].charge.Some? && s'.requests[id].phase == Booked(s'.requests[id].charge.value)
    ensures KeyInv(s', key, false)
  {
    assert Holds(s, id, key) && Holds(s', id, key);
    assert forall a :: Holds(s', a, key) <==> Holds(s, a, key);
    assert forall a :: Recorded(s, a, key) ==> a != id && Recorded(s', a, key);
    assert forall a :: !Paid(s, a, key) by {
      forall a | Paid(s, a, key) ensures a == id {
      }
    }
    assert forall a :: Paid(s', a, key) ==> a == id;
    hide Holds, Paid, Recorded, RequestsFit, Sealed;
    AnswersStay(s, s', id, key);
    hide AnswersFit;
  }

  /** The request is let in: over nobody's claim, or over one of a key that cannot be charged any more. */
  lemma KeyIsGranted(s: State, s': State, id: RequestId, key: Key, taken: bool, taken': bool)
    requires KeyInv(s, key, taken) && RequestsFit(s') && OnlyOne(s, s', id)
    requires id in s.requests && s.requests[id].key == Some(key) && s.requests[id].phase.Arrived?
    requires s'.requests[id] == s.requests[id].(phase := Accepted)
    requires s'.records == s.records[key := Processing(s.requests[id].hash, s.now, s.now + s.ttl)]
    requires if taken' then Sealed(s', key) else !taken && forall a :: !Holds(s, a, key) && !Paid(s, a, key)
    ensures KeyInv(s', key, taken')
  {
    assert forall a :: Holds(s', a, key) ==> Holds(s, a, key) || a == id;
    assert forall a :: Paid(s', a, key) <==> Paid(s, a, key);
    hide Paid, RequestsFit, Sealed;
    AnswersStay(s, s', id, key);
    hide AnswersFit;
  }

  /** The request gives its key back. */
  lemma KeyIsReleased(s: State, s': State, id: RequestId, key: Key, taken: bool)
    requires KeyInv(s, key, taken) && RequestsFit(s') && OnlyOne(s, s', id) && (taken ==> Sealed(s', key))
    requires id in s.requests && s.requests[id].key == Some(key) && s.requests[id].phase.Releasing? && s.requests[id].charge.None?
    requires s'.records == Released(s.records, key, s.requests[id].hash)
    requires s'.requests[id] == s.requests[id].(phase := Finished(Refused))
    ensures KeyInv(s', key, taken)
  {
    assert Holds(s, id, key) && !Holds(s', id, key);
    assert forall a :: Holds(s', a, key) ==> Holds(s, a, key) && a != id;
    assert forall a :: Paid(s', a, key) <==> Paid(s, a, key);
    assert forall a :: Recorded(s, a, key) ==> a != id && Recorded(s', a, key);
    assert !taken ==> forall a :: !Holds(s', a, key);
    hide Holds, Paid, Recorded, RequestsFit, Sealed;
    AnswersStay(s, s', id, key);
    hide AnswersFit;
  }

  /** The request records its answer. */
  lemma KeyIsAnswered(s: State, s': State, id: RequestId, key: Key, taken: bool)
    requires KeyInv(s, key, taken) && RequestsFit(s') && OnlyOne(s, s', id) && (taken ==> Sealed(s', key))
    requires id in s.requests && s.requests[id].key == Some(key) && s.requests[id].phase.Booked?
    requires s'.records ==
             s.records[key := Completed(s.requests[id].hash, 200, s.requests[id].phase.service, s.now, s.now + s.ttl)]
    requires s'.requests[id] == s.requests[id].(phase := Finished(Served(s.requests[id].phase.service)))
    ensures KeyInv(s', key, taken)
  {
    assert ChargeFitsPhase(s.requests[id]);
    assert Paid(s, id, key) && Holds(s, id, key) && !Holds(s', id, key) && Recorded(s', id, key);
    assert forall a :: Holds(s', a, key) ==> Holds(s, a, key) && a != id;
    assert forall a :: Paid(s', a, key) <==> Paid(s, a, key);
    assert forall a :: Paid(s', a, key) ==> a == id;
    assert !taken ==> forall a :: !Holds(s', a, key);
    assert !WasServed(s, id, key);
    hide Holds, Paid, WasServed, RequestsFit, Sealed, GotAnswer;
    assert GotAnswer(s', s'.requests[id], key) by { NotReplayed(s', s'.requests[id], key); }
    AnswersStay(s, s', id, key);
    hide AnswersFit;
  }

  lemma NotReplayed(s: State, r: Request, key: Key)
    requires !(r.phase.Finished? && r.phase.reply.Replayed?)
    ensures GotAnswer(s, r, key)
  {
  }

  // ---------------------------------------------------------------- the steps of the saga

  /** A request keeps its kind; its phase and its charge keep fitting. */
  lemma StepKeepsFit(s: State, e: Step)
    requires RequestsFit(s) && Enabled(s, e)
    ensures RequestsFit(Next(s, e))
  {
    OnlyItsRequest(s, e);
    if !e.Tick? && !e.Pay? {
      if e.Commit? {
        OwnCommit(s, e);
        CommitPhase(s, e);
      } else {
        QuietFit(s, e);
      }
    }
    hide Next, Enabled;
  }

  lemma QuietFit(s: State, e: Step)
    requires RequestsFit(s) && Enabled(s, e) && !e.Tick? && !e.Pay? && !e.Commit?
    ensures e.id in Next(s, e).requests
    ensures var r := Next(s, e).requests[e.id]; ChargeFitsPhase(r) && KeyFits(r.key, r.reseller, r.job)
  {
    if e.Arrive? {
      hide Begun, Released, CompletedRecords, Afford, Registered, OverQuota, Committed, RenewedMs;
    } else {
      OwnStep(s, e);
      assert ChargeFitsPhase(s.requests[e.id]);
      QuietCharge(s, e);
      hide Next, Enabled;
    }
  }

  lemma QuietCharge(s: State, e: Step)
    requires Enabled(s, e) && !e.Tick? && !e.Pay? && !e.Commit? && !e.Arrive?
    requires ChargeFitsPhase(s.requests[e.id])
    ensures e.id in Next(s, e).requests && ChargeFitsPhase(Next(s, e).requests[e.id])
  {
    hide Begun, Released, CompletedRecords, Afford, Registered, OverQuota, Committed, RenewedMs;
  }

  lemma CommitPhase(s: State, e: Step)
    requires Enabled(s, e) && e.Commit? && ChargeFitsPhase(s.requests[e.id])
    ensures s.requests[e.id].charge.None? && Running(s.requests[e.id].phase)
    ensures e.id in Next(s, e).requests && ChargeFitsPhase(Next(s, e).requests[e.id])
    ensures var p := Next(s, e).requests[e.id].phase; !p.Arrived? && !p.Finished?
  {
    hide CreateTx, ExtraIpv4Tx, RenewTx;
  }

  /** Records of other keys stay; a step that is not the key's own leaves everything about the key alone. */
  lemma OtherRecordsStay(s: State, e: Step, key: Key)
    requires Enabled(s, e)
    requires e.Tick? || e.Pay? || e.Arrive? || s.requests[e.id].key != Some(key)
    ensures SameRecord(s, Next(s, e), key)
  {
    if e.Prelude? || e.Release? || e.Answer? {
      hide Afford, Registered, OverQuota;
    } else {
      SharedFrame(s, e);
      hide Next;
    }
  }

  lemma ForeignStep(s: State, e: Step, key: Key, taken: bool)
    requires KeyInv(s, key, taken) && Enabled(s, e) && RequestsFit(Next(s, e)) && (taken ==> Sealed(Next(s, e), key))
    requires e.Tick? || e.Pay? || e.Arrive? || s.requests[e.id].key != Some(key)
    ensures KeyInv(Next(s, e), key, taken)
  {
    var s' := Next(s, e);
    OtherRecordsStay(s, e, key);
    OnlyItsRequest(s, e);
    if e.Tick? || e.Pay? {
      if id :| id in s.requests {
        hide Next, Enabled, RequestsFit, Sealed;
        if s.requests[id].key == Some(key) {
          SameRequests(s, s', id, key);
        }
        KeyStaysPut(s, s', id, key, taken);
      } else {
        hide Next, Enabled, RequestsFit, Sealed;
        NobodyThere(s, s', key, taken);
      }
    } else {
      var id := e.id;
      assert e.Arrive? ==> id !in s.requests && s'.requests[id].phase.Arrived? && s'.requests[id].charge.None?;
      assert !e.Arrive? ==> s'.requests[id].key == s.requests[id].key by {
        if !e.Arrive? {
          OwnStep(s, e);
        }
      }
      hide Next, Enabled, RequestsFit, Sealed;
      KeyStaysPut(s, s', id, key, taken);
    }
  }

  lemma SameRequests(s: State, s': State, id: RequestId, key: Key)
    requires AnswersFit(s, key) && s'.requests == s.requests && id in s.requests && s.requests[id].key == Some(key)
    ensures GotAnswer(s', s'.requests[id], key)
  {
    assert GotAnswer(s, s.requests[id], key);
  }

  lemma NobodyThere(s: State, s': State, key: Key, taken: bool)
    requires KeyInv(s, key, taken) && RequestsFit(s') && (taken ==> Sealed(s', key)) && SameRecord(s, s', key)
    requires s'.requests == s.requests && forall id :: id !in s.requests
    ensures KeyInv(s', key, taken)
  {
    hide Sealed;
  }

  /** A step of the key's own request that leaves the store alone. */
  lemma QuietStep(s: State, e: Step, key: Key, taken: bool)
    requires KeyInv(s, key, taken) && Enabled(s, e) && RequestsFit(Next(s, e)) && (taken ==> Sealed(Next(s, e), key))
    requires !e.Tick? && !e.Pay? && !e.Arrive? && !e.Prelude? && !e.Release? && !e.Answer?
    requires s.requests[e.id].key == Some(key)
    requires e.id in Next(s, e).requests && Next(s, e).requests[e.id].charge == s.requests[e.id].charge
    ensures KeyInv(Next(s, e), key, taken)
  {
    var s', id := Next(s, e), e.id;
    OnlyItsRequest(s, e);
    SharedFrame(s, e);
    OwnStep(s, e);
    QuietPhases(s, e);
    hide Next, Enabled, RequestsFit, Sealed;
    NotReplayed(s', s'.requests[id], key);
    KeyStaysPut(s, s', id, key, taken);
  }

  lemma QuietPhases(s: State, e: Step)
    requires Enabled(s, e)
    requires !e.Tick? && !e.Pay? && !e.Arrive? && !e.Prelude? && !e.Release? && !e.Answer?
    ensures e.id in Next(s, e).requests
    ensures var p, p' := s.requests[e.id].phase, Next(s, e).requests[e.id].phase;
            !p.Arrived? && !p.Finished? && !p.Crashed? && !p'.Arrived? && !p'.Finished?
  {
    if e.Commit? {
      hide CreateTx, ExtraIpv4Tx, RenewTx;
    } else {
      hide Committed, Afford, Registered, OverQuota, RenewedMs;
    }
  }

  lemma CommitStep(s: State, e: Step, key: Key, taken: bool)
    requires KeyInv(s, key, taken) && Enabled(s, e) && RequestsFit(Next(s, e)) && (taken ==> Sealed(Next(s, e), key))
    requires e.Commit? && s.requests[e.id].key == Some(key)
    ensures KeyInv(Next(s, e), key, taken)
  {
    var s', id := Next(s, e), e.id;
    OnlyItsRequest(s, e);
    SharedFrame(s, e);
    OwnCommit(s, e);
    CommitPhase(s, e);
    if taken {
      SealedIsNotCharged(s, e, key);
    }
    if s'.requests[id].charge == s.requests[id].charge {
      QuietStep(s, e, key, taken);
    } else {
      hide Next, Enabled, RequestsFit, Sealed;
      KeyIsPaid(s, s', id, key);
    }
  }

  lemma PreludeStep(s: State, e: Step, key: Key, taken: bool)
    requires KeyInv(s, key, taken) && Enabled(s, e) && !TakesOverOpen(s, e, key)
    requires RequestsFit(Next(s, e)) && (Sealed(s, key) ==> Sealed(Next(s, e), key))
    requires e.Prelude? && s.requests[e.id].key == Some(key)
    ensures KeyInv(Next(s, e), key, taken || TakesOver(s, e, key))
  {
    var s', id := Next(s, e), e.id;
    var r := s.requests[id];
    OnlyItsRequest(s, e);
    BeginGrants(s.records, key, r.hash, s.now, s.ttl);
    BodyMattersWhenCompleted(s.records, key, r.hash, s.now, s.ttl);
    var (outcome, after) := Begun(s.records, key, r.hash, s.now, s.ttl);
    assert s'.records == after && s'.requests[id] == r.(phase := ReplyTo(outcome));
    if outcome.Proceed? {
      assert !TakesOver(s, e, key) && !taken ==> forall a :: !Holds(s, a, key) && !Paid(s, a, key);
      hide Next, Enabled, RequestsFit, Sealed, Held;
      KeyIsGranted(s, s', id, key, taken, taken || TakesOver(s, e, key));
    } else {
      assert !TakesOver(s, e, key);
      assert GotAnswer(s', s'.requests[id], key) by {
        if outcome.Replay? {
          var a :| Recorded(s, a, key);
          assert a != id && WasServed(s', a, key);
        }
      }
      hide Next, Enabled, RequestsFit, Sealed, Held;
      KeyStaysPut(s, s', id, key, taken);
    }
  }

  lemma ReleaseStep(s: State, e: Step, key: Key, taken: bool)
    requires KeyInv(s, key, taken) && Enabled(s, e) && RequestsFit(Next(s, e)) && (taken ==> Sealed(Next(s, e), key))
    requires e.Release? && s.requests[e.id].key == Some(key)
    ensures KeyInv(Next(s, e), key, taken)
  {
    OnlyItsRequest(s, e);
    assert ChargeFitsPhase(s.requests[e.id]);
    hide RequestsFit, Sealed;
    KeyIsReleased(s, Next(s, e), e.id, key, taken);
  }

  lemma AnswerStep(s: State, e: Step, key: Key, taken: bool)
    requires KeyInv(s, key, taken) && Enabled(s, e) && RequestsFit(Next(s, e)) && (taken ==> Sealed(Next(s, e), key))
    requires e.Answer? && s.requests[e.id].key == Some(key)
    ensures KeyInv(Next(s, e), key, taken)
  {
    OnlyItsRequest(s, e);
    hide RequestsFit, Sealed;
    KeyIsAnswered(s, Next(s, e), e.id, key, taken);
  }

  /** Every step keeps the guard of a key, or its seal; taking over is harmless once the key is sealed. */
  lemma StepKeepsKey(s: State, e: Step, key: Key, taken: bool)
    requires ServicesInv(s) && KeyInv(s, key, taken) && Enabled(s, e) && !TakesOverOpen(s, e, key)
    ensures KeyInv(Next(s, e), key, taken || TakesOver(s, e, key))
  {
    StepKeepsFit(s, e);
    if Sealed(s, key) {
      SealedStays(s, e, key);
    }
    hide ServicesInv, Next, Sealed, RequestsFit, AnswersFit, Guarded, OnePaid;
    if e.Tick? || e.Pay? || e.Arrive? || s.requests[e.id].key != Some(key) {
      ForeignStep(s, e, key, taken);
    } else if e.Prelude? {
      PreludeStep(s, e, key, taken);
    } else if e.Release? {
      ReleaseStep(s, e, key, taken);
    } else if e.Answer? {
      AnswerStep(s, e, key, taken);
    } else if e.Commit? {
      CommitStep(s, e, key, taken);
    } else {
      OwnStep(s, e);
      QuietStep(s, e, key, taken);
    }
  }

  // ---------------------------------------------------------------- runs

  /** Whether the key was taken over, in the run or before it. */
  ghost function TakenAfter(s: State, steps: seq<Step>, key: Key, taken: bool): bool
    requires CanRun(s, steps)
    decreases |steps|
  {
    if steps == [] then taken else TakenAfter(Next(s, steps[0]), steps[1..], key, taken || TakesOver(s, steps[0], key))
  }

  lemma {:induction false} KeyStays(s: State, steps: seq<Step>, key: Key, taken: bool)
    requires ServicesInv(s) && KeyInv(s, key, taken) && CanRun(s, steps) && NeverTakesOverOpen(s, steps, key)
    ensures KeyInv(Run(s, steps), key, TakenAfter(s, steps, key, taken))
    ensures NeverTakesOver(s, steps, key) ==> TakenAfter(s, steps, key, taken) == taken
    decreases |steps|
  {
    hide KeyInv, ServicesInv, Enabled, Next, TakesOver, TakesOverOpen;
    if steps != [] {
      StepKeepsKey(s, steps[0], key, taken);
      StepKeepsServices(s, steps[0]);
      KeyStays(Next(s, steps[0]), steps[1..], key, taken || TakesOver(s, steps[0], key));
    }
  }

  lemma {:induction false} NeverIsNeverOpen(s: State, steps: seq<Step>, key: Key)
    requires CanRun(s, steps) && NeverTakesOver(s, steps, key)
    ensures NeverTakesOverOpen(s, steps, key)
    decreases |steps|
  {
    hide Enabled, Next, TakesOver, Sealed;
    if steps != [] {
      NeverIsNeverOpen(Next(s, steps[0]), steps[1..], key);
    }
  }

  lemma {:induction false} RunKeepsFit(s: State, steps: seq<Step>)
    requires RequestsFit(s) && CanRun(s, steps)
    ensures RequestsFit(Run(s, steps))
    decreases |steps|
  {
    hide RequestsFit, Enabled, Next;
    if steps != [] {
      StepKeepsFit(s, steps[0]);
      RunKeepsFit(Next(s, steps[0]), steps[1..]);
    }
  }

  /** From a state with a sealed key on, in every run and whoever takes over, no request with the key is charged. */
  lemma {:induction false} SealedIsNeverCharged(s: State, steps: seq<Step>, key: Key, a: RequestId)
    requires ServicesInv(s) && RequestsFit(s) && Sealed(s, key) && CanRun(s, steps)
    ensures Sealed(Run(s, steps), key) && (Paid(Run(s, steps), a, key) <==> Paid(s, a, key))
    decreases |steps|
  {
    hide RequestsFit, Enabled, Next, ServicesInv, Sealed, Paid;
    if steps != [] {
      var t := Next(s, steps[0]);
      StepKeepsFit(s, steps[0]);
      StepKeepsServices(s, steps[0]);
      SealedStays(s, steps[0], key);
      SealedStep(s, steps[0], key, a);
      SealedIsNeverCharged(t, steps[1..], key, a);
    }
  }

  lemma SealedStep(s: State, e: Step, key: Key, a: RequestId)
    requires RequestsFit(s) && Sealed(s, key) && Enabled(s, e)
    ensures Paid(Next(s, e), a, key) <==> Paid(s, a, key)
  {
    OnlyItsRequest(s, e);
    if e.Arrive? {
      hide Sealed;
    } else if !e.Tick? && !e.Pay? {
      OwnStep(s, e);
      if e.Commit? && s.requests[e.id].key == Some(key) {
        SealedIsNotCharged(s, e, key);
      }
      hide Next, Enabled, Sealed;
    }
  }

  /** A fresh deployment. */
  lemma FreshKey(s: State, key: Key)
    requires Fresh(s)
    ensures ServicesInv(s) && KeyInv(s, key, false)
  {
  }

  /**
   * In every run in which no request takes this key over from one that is still at work or was charged while the key can still be
   * charged, whatever interleaves: of all requests sent with the key at most one is charged. Retries over the claim of a request
   * that crashed before it was charged are among these runs, and so are late retries of a purchase for a service that is sold out.
   * As long as the key was not taken over at all, the charged request keeps it until its answer is recorded in its place.
   */
  lemma OneChargePerKey(s: State, steps: seq<Step>, key: Key, a: RequestId, b: RequestId)
    requires Fresh(s) && CanRun(s, steps) && NeverTakesOverOpen(s, steps, key)
    ensures var e := Run(s, steps);
            && (Paid(e, a, key) && Paid(e, b, key) ==> a == b)
            && (NeverTakesOver(s, steps, key) ==>
                  && (Paid(e, a, key) ==> key in e.records && (Holds(e, a, key) || Recorded(e, a, key)))
                  && (Holds(e, a, key) ==>
                        key in e.records && e.records[key].Processing? && e.records[key].hash == e.requests[a].hash))
  {
    FreshKey(s, key);
    hide Fresh;
    KeyStays(s, steps, key, false);
  }

  /**
   * What a later request with the key of a paid one is told: to wait while the answer is not recorded, whatever its
   * body; afterwards exactly the recorded answer for the same body and a conflict for any other.
   */
  lemma LaterRequestsAreAnswered(s: State, steps: seq<Step>, key: Key, a: RequestId, id: RequestId)
    requires Fresh(s) && CanRun(s, steps) && NeverTakesOver(s, steps, key)
    requires var e := Run(s, steps);
             && Paid(e, a, key) && id in e.requests && e.requests[id].key == Some(key) && e.requests[id].phase.Arrived?
             && !Lapsed(e.records, key, e.now)
    ensures var e := Run(s, steps);
            var reply := Next(e, Prelude(id)).requests[id].phase;
            reply == Finished(
              if !e.requests[a].phase.Finished? then ToldInProgress
              else if e.requests[id].hash == e.requests[a].hash then Replayed(200, e.requests[a].charge.value)
              else ToldConflict)
  {
    FreshKey(s, key);
    NeverIsNeverOpen(s, steps, key);
    KeyStays(s, steps, key, false);
    var e := Run(s, steps);
    assert Holds(e, a, key) || Recorded(e, a, key);
    BodyMattersWhenCompleted(e.records, key, e.requests[id].hash, e.now, e.ttl);
  }

  // ---------------------------------------------------------------- runs that are short enough

  /** No record is older than `start`. */
  ghost predicate Stamped(s: State, start: nat) {
    && start <= s.now
    && forall k :: k in s.records ==> start <= s.records[k].startedAt && s.records[k].expiresAt == s.records[k].startedAt + s.ttl
  }

  lemma StepKeepsStamps(s: State, e: Step, start: nat)
    requires Stamped(s, start) && Enabled(s, e)
    ensures Stamped(Next(s, e), start)
  {
    hide Afford, Registered, OverQuota, CreateTx, ExtraIpv4Tx, RenewTx;
    if !e.Prelude? && !e.Release? && !e.Answer? {
      StepFrame(s, e);
      hide Next;
    }
  }

  lemma {:induction false} RunsForward(s: State, steps: seq<Step>)
    requires CanRun(s, steps)
    ensures Run(s, steps).now >= s.now
    decreases |steps|
  {
    if steps != [] {
      StepFrame(s, steps[0]);
      hide Next, Enabled;
      RunsForward(Next(s, steps[0]), steps[1..]);
    }
  }

  /** A run that begins with an empty store and ends within one lease and one time to live lets nobody in over a record. */
  lemma {:induction false} ShortRunsNeverTakeOver(s: State, steps: seq<Step>, start: nat, key: Key)
    requires Stamped(s, start) && CanRun(s, steps) && Run(s, steps).now < start + Min(LEASE_MS, s.ttl)
    ensures NeverTakesOver(s, steps, key)
    decreases |steps|
  {
    if steps != [] {
      RunsForward(s, steps);
      StepKeepsStamps(s, steps[0], start);
      StepFrame(s, steps[0]);
      ShortRunsNeverTakeOver(Next(s, steps[0]), steps[1..], start, key);
    }
  }
}
