// Which request paid for what, and the address each extra-IPv4 charge stands for
// (src/api/reseller-api-vm-ops.ts:104-197).
module SagaCharges {
  import opened Common
  import opened IdempotencyStore
  import opened ResellerDb
  import opened ResellerSaga
  import opened SagaServices

  predicate PurposeFits(job: Job, purpose: Purpose) {
    match job
    case Create(_) => purpose == ServiceCreate
    case BuyIpv4(_) => purpose == ExtraIpv4
    case Renew(_, _) => purpose == ServiceRenew
  }

  /** The ledger entry belongs to a request that was charged for this service, at the price of its job. */
  ghost predicate EntryFits(s: State, m: Movement)
    requires m.Debit?
  {
    && m.request in s.requests
    && var r := s.requests[m.request];
    && r.charge == Some(m.service) && PurposeFits(r.job, m.purpose)
    && (r.job.Create? ==> m.amount == r.job.price)
    && (r.job.BuyIpv4? ==> m.amount == s.monthly && r.job.target == m.service && m.request in s.addressed)
    && (r.job.Renew? ==> r.job.target == m.service)
  }

  /** Requests that were charged for an extra address of this service. */
  function PaidFor(s: State, service: ServiceId): set<RequestId> {
    set id | id in s.requests && s.requests[id].job.BuyIpv4? && s.requests[id].charge == Some(service)
  }

  /** Requests the provider assigned an address of this service to. */
  function AddressedFor(s: State, service: ServiceId): set<RequestId> {
    set id | id in s.addressed && id in s.requests && s.requests[id].job == BuyIpv4(service)
  }

  /** A request that has an address was given one, and one that is still at work was not charged. */
  predicate WorkFits(s: State, id: RequestId)
    requires id in s.requests
  {
    var r := s.requests[id];
    && (r.phase.HasIpv4? ==> id in s.addressed)
    && (r.phase.Arrived? || (Running(r.phase) && !r.phase.Booked?) ==> r.charge.None?)
  }

  ghost predicate ChargesInv(s: State) {
    && (forall m :: m in s.db.history && m.Debit? ==> EntryFits(s, m))
    && (forall id :: ChargesBy(s.db.history, id) == if id in s.requests && s.requests[id].charge.Some? then 1 else 0)
    && (forall id :: id in s.addressed ==> id in s.requests && s.requests[id].job.BuyIpv4?)
    && (forall id :: id in s.requests ==> WorkFits(s, id))
    && (forall service :: |PaidFor(s, service)| == Charges(s.db.history, service, ExtraIpv4))
  }

  lemma NotCharged(s: State, s': State)
    requires ChargesInv(s) && s'.monthly == s.monthly
    requires s'.db.history == s.db.history || exists w, a :: s'.db.history == s.db.history + [TopUp(w, a)]
    requires s.addressed <= s'.addressed
    requires forall id :: id in s.requests ==> id in s'.requests && s'.requests[id].charge == s.requests[id].charge
                                               && s'.requests[id].job == s.requests[id].job
    requires forall id :: id in s'.requests && id !in s.requests ==> s'.requests[id].charge.None?
    requires forall id :: id in s'.addressed ==> id in s'.requests && s'.requests[id].job.BuyIpv4?
    requires forall id :: id in s'.requests ==> WorkFits(s', id)
    ensures ChargesInv(s')
  {
    hide Charges, ChargesBy;
    forall m | m in s'.db.history && m.Debit? ensures EntryFits(s', m) {
      assert EntryFits(s, m);
    }
    forall service ensures |PaidFor(s', service)| == Charges(s'.db.history, service, ExtraIpv4) {
      assert PaidFor(s', service) == PaidFor(s, service);
      if s'.db.history != s.db.history {
        var w, a :| s'.db.history == s.db.history + [TopUp(w, a)];
        AppendedCharges(s.db.history, TopUp(w, a), service, ExtraIpv4);
      }
    }
    forall id ensures ChargesBy(s'.db.history, id) == if id in s'.requests && s'.requests[id].charge.Some? then 1 else 0 {
      if s'.db.history != s.db.history {
        var w, a :| s'.db.history == s.db.history + [TopUp(w, a)];
        AppendedChargesBy(s.db.history, TopUp(w, a), id);
      }
    }
  }

  lemma NewlyCharged(s: State, s': State, id: RequestId, m: Movement)
    requires ChargesInv(s) && s'.monthly == s.monthly && s'.addressed == s.addressed
    requires id in s.requests && s.requests[id].charge.None? && id in s'.requests
    requires s'.requests == s.requests[id := s'.requests[id]] && s'.requests[id].job == s.requests[id].job
    requires m.Debit? && s'.db.history == s.db.history + [m] && m.request == id && EntryFits(s', m)
    requires s'.requests[id].phase.Booked?
    ensures ChargesInv(s')
  {
    hide Charges, ChargesBy;
    forall n | n in s'.db.history && n.Debit? ensures EntryFits(s', n) {
      if n != m {
        assert EntryFits(s, n);
      }
    }
    forall service ensures |PaidFor(s', service)| == Charges(s'.db.history, service, ExtraIpv4) {
      AppendedCharges(s.db.history, m, service, ExtraIpv4);
      if service == m.service && m.purpose == ExtraIpv4 {
        assert PaidFor(s', service) == PaidFor(s, service) + {id};
      } else {
        assert PaidFor(s', service) == PaidFor(s, service);
      }
    }
    forall r ensures ChargesBy(s'.db.history, r) == if r in s'.requests && s'.requests[r].charge.Some? then 1 else 0 {
      AppendedChargesBy(s.db.history, m, r);
    }
  }

  lemma CommitCharges(s: State, e: Step)
    requires ChargesInv(s) && Enabled(s, e) && e.Commit?
    ensures ChargesInv(Next(s, e))
  {
    var s', id := Next(s, e), e.id;
    OnlyItsRequest(s, e);
    StepFrame(s, e);
    OwnStep(s, e);
    CommitEntry(s, e);
    hide Next, Enabled;
    if s'.requests[id].phase.Booked? {
      NewlyCharged(s, s', id, s'.db.history[|s.db.history|]);
    } else {
      NotCharged(s, s');
    }
  }

  /** A committed transaction adds exactly its own ledger entry; one that fails adds nothing. */
  lemma CommitEntry(s: State, e: Step)
    requires ChargesInv(s) && Enabled(s, e) && e.Commit?
    ensures var s', id := Next(s, e), e.id;
            && id in s'.requests
            && s'.addressed == s.addressed
            && (s'.requests[id].phase.Booked? ==>
                  && |s'.db.history| == |s.db.history| + 1
                  && var m := s'.db.history[|s.db.history|];
                  && s'.db.history == s.db.history + [m] && m.Debit? && m.request == id && EntryFits(s', m))
            && (!s'.requests[id].phase.Booked? ==> s'.db == s.db && s'.requests[id].charge == s.requests[id].charge)
            && !s'.requests[id].phase.HasIpv4? && !s'.requests[id].phase.Arrived?
  {
    hide Charges, ChargesBy, Registered, Afford, OverQuota;
    assert WorkFits(s, e.id);
    match s.requests[e.id].job
    case Create(_) =>
    case BuyIpv4(_) =>
    case Renew(_, _) =>
  }

  lemma StepKeepsCharges(s: State, e: Step)
    requires ChargesInv(s) && Enabled(s, e)
    ensures ChargesInv(Next(s, e))
  {
    if e.Commit? {
      CommitCharges(s, e);
    } else {
      QuietKeepsCharges(s, e);
    }
  }

  lemma QuietKeepsCharges(s: State, e: Step)
    requires ChargesInv(s) && Enabled(s, e) && !e.Commit?
    ensures ChargesInv(Next(s, e))
  {
    hide Charges, ChargesBy, EntryFits, PaidFor;
    var s' := Next(s, e);
    OnlyItsRequest(s, e);
    StepFrame(s, e);
    QuietCharges(s, e);
    hide Next, Enabled, Running;
    if e.Tick? || e.Pay? {
      NotCharged(s, s');
    } else {
      assert s'.db == s.db;
      NotCharged(s, s');
    }
  }

  lemma QuietCharges(s: State, e: Step)
    requires ChargesInv(s) && Enabled(s, e) && !e.Commit?
    ensures var s' := Next(s, e);
            && (e.Pay? ==> s'.db.history == s.db.history + [TopUp(e.wallet, e.amount)])
            && (!e.Pay? ==> s'.db == s.db)
            && s'.addressed == (if e.Assign? && e.ok then s.addressed + {e.id} else s.addressed)
            && (!e.Tick? && !e.Pay? ==>
                  && e.id in s'.requests
                  && var r' := s'.requests[e.id];
                  && (e.id in s.requests ==> r'.charge == s.requests[e.id].charge && r'.job == s.requests[e.id].job)
                  && (e.id !in s.requests ==> r'.charge.None?)
                  && (r'.phase.HasIpv4? ==> e.Assign? && e.ok)
                  && (e.Assign? ==> r'.job.BuyIpv4?)
                  && (r'.phase.Arrived? || (Running(r'.phase) && !r'.phase.Booked?) ==> r'.charge.None?))
  {
    StepFrame(s, e);
    OnlyItsRequest(s, e);
    if !e.Tick? && !e.Pay? {
      if !e.Arrive? {
        OwnStep(s, e);
      }
      QuietPhases(s, e);
    }
    hide Begun, Released, CompletedRecords, Afford, Registered, OverQuota, Charges, ChargesBy, EntryFits, PaidFor, Move, Put;
  }

  lemma QuietPhases(s: State, e: Step)
    requires ChargesInv(s) && Enabled(s, e) && !e.Commit? && !e.Tick? && !e.Pay?
    ensures e.id in Next(s, e).requests
    ensures var r' := Next(s, e).requests[e.id];
            && (r'.phase.HasIpv4? ==> e.Assign? && e.ok)
            && (e.Assign? ==> r'.job.BuyIpv4?)
            && (r'.phase.Arrived? || (Running(r'.phase) && !r'.phase.Booked?) ==> r'.charge.None?)
  {
    if e.Arrive? {
      hide ChargesInv;
    } else {
      var r := s.requests[e.id];
      OwnStep(s, e);
      assert WorkFits(s, e.id);
      hide ChargesInv, Charges, ChargesBy, EntryFits, PaidFor;
      QuietMoves(s, e);
      hide Next, Enabled;
    }
  }

  /** A request is at work only if it was, or had just arrived, and is given its address by `Assign`. */
  lemma QuietMoves(s: State, e: Step)
    requires Enabled(s, e) && !e.Commit? && !e.Tick? && !e.Pay? && !e.Arrive?
    ensures e.id in Next(s, e).requests && e.id in s.requests
    ensures var r, r' := s.requests[e.id], Next(s, e).requests[e.id];
            && (r'.phase.HasIpv4? ==> e.Assign? && e.ok)
            && (e.Assign? ==> r.job.BuyIpv4?)
            && !r'.phase.Arrived?
            && (Running(r'.phase) && !r'.phase.Booked? ==> r.phase.Arrived? || (Running(r.phase) && !r.phase.Booked?))
  {
    hide Begun, Released, CompletedRecords, Afford, Registered, OverQuota, Committed, RenewedMs;
  }

  /**
   * In every run each ledger entry belongs to one request, each request is charged at most once, and the number of
   * extra-address charges of a service is the number of requests that paid for one.
   */
  lemma {:induction false} ChargesMatchRequests(s: State, steps: seq<Step>)
    requires ChargesInv(s) && CanRun(s, steps)
    ensures ChargesInv(Run(s, steps))
    decreases |steps|
  {
    if steps != [] {
      StepKeepsCharges(s, steps[0]);
      ChargesMatchRequests(Next(s, steps[0]), steps[1..]);
    }
  }

  /**
   * However many purchases of extra addresses for one service interleave: the row never counts more than the limit,
   * its renewal price is the creation price plus the counted addresses, the wallet lost the monthly price per charge,
   * and every charge has an assigned address of its own. Unless a renewal wrote back an older row, the count is the
   * number of charges, so the limit holds for charges as well.
   */
  lemma ExtraIpv4IsConsistent(s: State, steps: seq<Step>, service: ServiceId)
    requires ServicesInv(s) && ChargesInv(s) && CanRun(s, steps)
    requires service in Run(s, steps).db.rows
    ensures var e := Run(s, steps);
            var row, charges := e.db.rows[service], Charges(e.db.history, service, ExtraIpv4);
            && row.extraIpv4 <= MAX_EXTRA_IPV4
            && row.renewalPrice == Charged(e.db.history, service, ServiceCreate) + row.extraIpv4 * e.monthly
            && Charged(e.db.history, service, ExtraIpv4) == charges * e.monthly
            && PaidFor(e, service) <= AddressedFor(e, service)
            && charges <= |AddressedFor(e, service)|
            && (service !in e.overwritten ==> row.extraIpv4 == charges <= MAX_EXTRA_IPV4)
  {
    ServicesAgreeWithLedger(s, steps);
    ChargesMatchRequests(s, steps);
    var e := Run(s, steps);
    assert RowFits(e, service);
    hide Charges, Charged, ChargesBy, Run;
    forall id | id in PaidFor(e, service) ensures id in AddressedFor(e, service) {
      PaidEntry(e.db.history, id);
    }
    SubsetSize(PaidFor(e, service), AddressedFor(e, service));
  }

  lemma {:induction false} PaidEntry(history: seq<Movement>, id: RequestId)
    requires ChargesBy(history, id) > 0
    ensures exists m :: m in history && m.Debit? && m.request == id
  {
    var n := |history| - 1;
    assert history[n] in history;
    if !(history[n].Debit? && history[n].request == id) {
      PaidEntry(history[..n], id);
      var m :| m in history[..n] && m.Debit? && m.request == id;
      assert m in history;
    }
  }
}
