// The quota check of the create handler under concurrency (src/api/reseller-api.ts:1156-1173,1270-1297).
module SagaQuota {
  import opened Common
  import opened IdempotencyStore
  import opened ResellerDb
  import opened ResellerSaga
  import opened SagaServices

  /** Create requests of the reseller whose handler has not ended. */
  function InFlight(s: State, reseller: ResellerId): set<RequestId> {
    set id | id in s.requests && s.requests[id].reseller == reseller && s.requests[id].job.Create?
             && !s.requests[id].phase.Finished? && !s.requests[id].phase.Crashed?
  }

  /** Those of them that passed the quota check and may still insert a service. */
  function PastCheck(s: State, reseller: ResellerId): set<RequestId> {
    set id | id in s.requests && s.requests[id].reseller == reseller && s.requests[id].job.Create? && Pending(s.requests[id].phase)
  }

  predicate Pending(p: Phase) {
    p.Checked? || p.Funded? || p.HasVm? || p.Unregistered?
  }

  /** Services the reseller has or is about to have. */
  function Load(s: State, reseller: ResellerId): nat {
    |Owned(s.db, reseller)| + |PastCheck(s, reseller)|
  }

  /** At every moment of the run, at most `k` create requests of the reseller are in flight. */
  ghost predicate AtMostInFlight(s: State, steps: seq<Step>, reseller: ResellerId, k: nat)
    requires CanRun(s, steps)
    decreases |steps|
  {
    && |InFlight(s, reseller)| <= k
    && (steps != [] ==> AtMostInFlight(Next(s, steps[0]), steps[1..], reseller, k))
  }

  lemma NoGrowth(s: State, s': State, reseller: ResellerId)
    requires Owned(s'.db, reseller) <= Owned(s.db, reseller) && PastCheck(s', reseller) <= PastCheck(s, reseller)
    ensures Load(s', reseller) <= Load(s, reseller)
  {
    SubsetSize(Owned(s'.db, reseller), Owned(s.db, reseller));
    SubsetSize(PastCheck(s', reseller), PastCheck(s, reseller));
  }

  /** Passing the check: fewer services than the quota, and the other requests past the check are in flight, too. */
  lemma CheckLoad(s: State, e: Step, reseller: ResellerId, k: nat)
    requires Enabled(s, e) && e.Check? && |InFlight(s, reseller)| <= k
    requires reseller in s.db.resellers && s.db.resellers[reseller].maxVps > 0
    ensures Load(Next(s, e), reseller) <= Max(Load(s, reseller), s.db.resellers[reseller].maxVps - 1 + k)
  {
    var s', id := Next(s, e), e.id;
    OnlyItsRequest(s, e);
    CheckPhase(s, e);
    hide Next, Enabled, OverQuota, Owned;
    if id in PastCheck(s', reseller) {
      assert id !in PastCheck(s, reseller) && id in InFlight(s, reseller);
      assert PastCheck(s', reseller) == PastCheck(s, reseller) + {id};
      assert PastCheck(s, reseller) <= InFlight(s, reseller) - {id};
      SubsetSize(PastCheck(s, reseller), InFlight(s, reseller) - {id});
      assert |Owned(s.db, reseller)| < s.db.resellers[reseller].maxVps;
    } else {
      NoGrowth(s, s', reseller);
    }
  }

  lemma CheckPhase(s: State, e: Step)
    requires Enabled(s, e) && e.Check?
    ensures var s', r := Next(s, e), s.requests[e.id];
            && s'.db == s.db && e.id in s'.requests && r.phase.Accepted?
            && s'.requests[e.id].reseller == r.reseller && s'.requests[e.id].job == r.job
            && (r.job.Create? ==>
                  (Pending(s'.requests[e.id].phase) ==>
                     !(r.reseller in s.db.resellers && s.db.resellers[r.reseller].maxVps > 0
                       && |Owned(s.db, r.reseller)| >= s.db.resellers[r.reseller].maxVps)))
  {
    hide Owned;
  }

  lemma CommitLoad(s: State, e: Step, reseller: ResellerId)
    requires ServicesInv(s) && Enabled(s, e) && e.Commit?
    ensures Load(Next(s, e), reseller) <= Load(s, reseller)
  {
    var s', id := Next(s, e), e.id;
    OnlyItsRequest(s, e);
    CommitPhases(s, e);
    if s.requests[id].phase.Unregistered? && s'.requests[id].phase.Booked? {
      var service := s.db.nextId;
      assert s'.db.rows == s.db.rows[service := s'.db.rows[service]];
      assert s'.db.rows[service].reseller == s.requests[id].reseller;
      hide ServicesInv, Next, Enabled;
      if s.requests[id].reseller == reseller {
        assert PastCheck(s', reseller) == PastCheck(s, reseller) - {id} && id in PastCheck(s, reseller);
        assert Owned(s'.db, reseller) == Owned(s.db, reseller) + {service};
      } else {
        NoGrowth(s, s', reseller);
      }
    } else {
      assert forall r :: r in s.db.rows <==> r in s'.db.rows;
      assert forall r :: r in s.db.rows ==> s'.db.rows[r].reseller == s.db.rows[r].reseller;
      hide ServicesInv, Next, Enabled;
      NoGrowth(s, s', reseller);
    }
  }

  lemma CommitPhases(s: State, e: Step)
    requires ServicesInv(s) && Enabled(s, e) && e.Commit?
    ensures e.id in Next(s, e).requests && !Pending(Next(s, e).requests[e.id].phase)
    ensures !(s.requests[e.id].phase.Unregistered? && Next(s, e).requests[e.id].phase.Booked?) ==>
              && Next(s, e).db.rows.Keys == s.db.rows.Keys
              && forall r :: r in s.db.rows ==> Next(s, e).db.rows[r].reseller == s.db.rows[r].reseller
  {
    var r := s.requests[e.id];
    if r.phase.Priced? {
      assert SnapshotFits(s, r, r.phase.snapshot);
    }
  }

  lemma StepLoad(s: State, e: Step, reseller: ResellerId, k: nat)
    requires ServicesInv(s) && Enabled(s, e) && |InFlight(s, reseller)| <= k
    requires reseller in s.db.resellers && s.db.resellers[reseller].maxVps > 0
    ensures Load(Next(s, e), reseller) <= Max(Load(s, reseller), s.db.resellers[reseller].maxVps - 1 + k)
  {
    if e.Check? {
      CheckLoad(s, e, reseller, k);
    } else if e.Commit? {
      CommitLoad(s, e, reseller);
    } else {
      OnlyItsRequest(s, e);
      QuietLoad(s, e);
      NoGrowth(s, Next(s, e), reseller);
    }
  }

  lemma QuietLoad(s: State, e: Step)
    requires Enabled(s, e) && !e.Check? && !e.Commit?
    ensures Next(s, e).db.rows == s.db.rows
    ensures !e.Tick? && !e.Pay? ==>
              && e.id in Next(s, e).requests
              && var r' := Next(s, e).requests[e.id];
              Pending(r'.phase) ==> e.id in s.requests && Pending(s.requests[e.id].phase)
                                    && r'.reseller == s.requests[e.id].reseller && r'.job == s.requests[e.id].job
  {
    hide Begun, Released, CompletedRecords, Afford, Registered;
  }

  lemma SameResellers(s: State, e: Step)
    requires Enabled(s, e)
    ensures Next(s, e).db.resellers == s.db.resellers
  {
    hide Begun, Released, CompletedRecords, Registered, OverQuota;
  }

  /**
   * With at most `k` create requests in flight at a time, a reseller never gets beyond `maxVps + k - 1` services, or
   * beyond what it has already: the check and the insertion are far apart, but each request in between is counted.
   */
  lemma {:induction false} QuotaHolds(s: State, steps: seq<Step>, reseller: ResellerId, k: nat)
    requires ServicesInv(s) && CanRun(s, steps) && AtMostInFlight(s, steps, reseller, k)
    requires reseller in s.db.resellers && s.db.resellers[reseller].maxVps > 0
    ensures Load(Run(s, steps), reseller) <= Max(Load(s, reseller), s.db.resellers[reseller].maxVps - 1 + k)
    decreases |steps|
  {
    if steps != [] {
      StepLoad(s, steps[0], reseller, k);
      StepKeepsServices(s, steps[0]);
      SameResellers(s, steps[0]);
      QuotaHolds(Next(s, steps[0]), steps[1..], reseller, k);
    }
  }

  /** One request at a time: the quota is exact. */
  lemma QuotaIsExact(s: State, steps: seq<Step>, reseller: ResellerId)
    requires ServicesInv(s) && CanRun(s, steps) && AtMostInFlight(s, steps, reseller, 1)
    requires reseller in s.db.resellers && s.db.resellers[reseller].maxVps > 0
    requires Load(s, reseller) <= s.db.resellers[reseller].maxVps
    ensures |Owned(Run(s, steps).db, reseller)| <= s.db.resellers[reseller].maxVps
  {
    QuotaHolds(s, steps, reseller, 1);
  }

  // ---------------------------------------------------------------- who passes

  /** The reseller has no limit of services, or has not reached it. */
  predicate HasQuota(db: Db, reseller: ResellerId) {
    reseller in db.resellers && db.resellers[reseller].maxVps > 0 ==>
      |set id | id in db.rows && db.rows[id].reseller == reseller| < db.resellers[reseller].maxVps
  }

  lemma QuotaIsRoom(db: Db, reseller: ResellerId)
    ensures HasQuota(db, reseller) <==> !OverQuota(db, reseller)
  {
    assert Owned(db, reseller) == set id | id in db.rows && db.rows[id].reseller == reseller;
  }

  /** A creation passes the check exactly when its reseller has fewer services than `maxVps`, or `maxVps` is 0, or nobody set it. */
  lemma CheckPassesIff(s: State, id: RequestId)
    requires Enabled(s, Check(id)) && s.requests[id].job.Create?
    ensures Next(s, Check(id)).requests[id].phase == if HasQuota(s.db, s.requests[id].reseller) then Checked else Releasing
  {
    QuotaIsRoom(s.db, s.requests[id].reseller);
    hide HasQuota, OverQuota;
  }
}
