// What the saga keeps, stated for the states that a fresh deployment can reach.
module SagaReachable {
  import opened Common
  import opened IdempotencyStore
  import opened ResellerDb
  import opened ResellerSaga
  import opened SagaServices
  import opened SagaMachines
  import opened SagaQuota
  import opened SagaCharges
  import opened SagaKeys
  import opened SagaTakeovers
  import opened SagaPurchases

  // ---------------------------------------------------------------- consistency

  /** A fresh deployment satisfies everything that runs keep. */
  lemma FreshIsConsistent(s: State)
    requires Fresh(s)
    ensures ServicesInv(s) && ChargesInv(s) && LedgerAddsUp(s.db, s.db.balances)
    ensures MachinesAccounted(s) && PhasesFit(s)
    ensures forall key :: KeyInv(s, key, false)
  {
  }

  lemma {:induction false} RunKeepsPhases(s: State, steps: seq<Step>)
    requires PhasesFit(s) && CanRun(s, steps)
    ensures PhasesFit(Run(s, steps))
    decreases |steps|
  {
    hide PhasesFit, Enabled, Next;
    if steps != [] {
      StepKeepsPhases(s, steps[0]);
      RunKeepsPhases(Next(s, steps[0]), steps[1..]);
    }
  }

  /**
   * In every state that a fresh deployment can reach, whatever interleaves and whatever fails: wallets and ledger add up, services
   * agree with the ledger, charges with requests, and every machine has exactly one owner.
   */
  lemma ReachableIsConsistent(s: State, steps: seq<Step>)
    requires Fresh(s) && CanRun(s, steps)
    ensures var e := Run(s, steps);
            LedgerAddsUp(e.db, s.db.balances) && ServicesInv(e) && ChargesInv(e) && MachinesAccounted(e) && PhasesFit(e)
  {
    FreshIsConsistent(s);
    hide *;
    WalletsAddUp(s, steps, s.db.balances);
    ServicesAgreeWithLedger(s, steps);
    ChargesMatchRequests(s, steps);
    MachinesStayAccounted(s, steps);
    RunKeepsPhases(s, steps);
  }

  /** From the fresh state on, with at most `k` creations in flight, a reseller has at most `maxVps + k - 1` services. */
  lemma ReachableQuota(s: State, steps: seq<Step>, reseller: ResellerId, k: nat)
    requires Fresh(s) && CanRun(s, steps) && AtMostInFlight(s, steps, reseller, k)
    requires reseller in s.db.resellers && s.db.resellers[reseller].maxVps > 0 && k > 0
    ensures |Owned(Run(s, steps).db, reseller)| <= s.db.resellers[reseller].maxVps + k - 1
  {
    FreshIsConsistent(s);
    assert Owned(s.db, reseller) == {} && PastCheck(s, reseller) == {};
    hide Run, ServicesInv, AtMostInFlight;
    QuotaHolds(s, steps, reseller, k);
  }

  /** From the fresh state on, a service that no stale renewal wrote over counts exactly its charged addresses, within the limit. */
  lemma ReachableLimit(s: State, steps: seq<Step>, service: ServiceId)
    requires Fresh(s) && CanRun(s, steps) && NeverSavesStale(s, steps, service) && service in Run(s, steps).db.rows
    ensures var e := Run(s, steps);
            e.db.rows[service].extraIpv4 == Charges(e.db.history, service, ExtraIpv4) <= MAX_EXTRA_IPV4
  {
    FreshIsConsistent(s);
    hide Run, Charges, ServicesInv, NeverSavesStale;
    CountIsExact(s, steps, service);
  }

  // ---------------------------------------------------------------- purchases

  /** A request that was charged for an address of the service is counted in the ledger. */
  lemma BuyerIsCounted(s: State, service: ServiceId, id: RequestId)
    requires ChargesInv(s) && id in s.requests && s.requests[id].job == BuyIpv4(service) && s.requests[id].charge.Some?
    ensures id in PaidFor(s, service)
  {
    PaidEntry(s.db.history, id);
    var m :| m in s.db.history && m.Debit? && m.request == id;
    assert EntryFits(s, m);
    hide ChargesInv, Charges, ChargesBy;
  }

  /**
   * In every run without a stale save of the service at most one purchase for it is charged, whatever keys purchases come with and
   * whoever takes over: the transaction looks at the count again.
   */
  lemma OneAddressIsSold(s: State, steps: seq<Step>, service: ServiceId, a: RequestId, b: RequestId)
    requires Fresh(s) && CanRun(s, steps) && NeverSavesStale(s, steps, service)
    requires var e := Run(s, steps);
             forall id :: id in {a, b} ==> id in e.requests && e.requests[id].job == BuyIpv4(service) && e.requests[id].charge.Some?
    ensures a == b
  {
    ReachableIsConsistent(s, steps);
    var e := Run(s, steps);
    assert a in {a, b} && b in {a, b};
    BuyerIsCounted(e, service, a);
    BuyerIsCounted(e, service, b);
    SubsetSize({a, b}, PaidFor(e, service));
    assert Charges(e.db.history, service, ExtraIpv4) >= 1;
    ReachableLimit(s, steps, service);
    hide *;
    assert a != b ==> |{a, b}| == 2;
  }

  /** So a purchase's key is charged once in every such run, take-overs included. */
  lemma OneChargePerPurchaseKey(s: State, steps: seq<Step>, key: Key, a: RequestId, b: RequestId)
    requires Fresh(s) && CanRun(s, steps) && key.route.Ipv4Route? && NeverSavesStale(s, steps, key.route.service)
    requires Paid(Run(s, steps), a, key) && Paid(Run(s, steps), b, key)
    ensures a == b
  {
    FreshIsConsistent(s);
    assert KeyInv(s, key, false);
    RunKeepsFit(s, steps);
    OneAddressIsSold(s, steps, key.route.service, a, b);
  }

  // ---------------------------------------------------------------- where keys can be charged twice

  /**
   * The condition of `OneChargePerKey` is exact. For creations: from every reachable state in which the next request with a key
   * could take over, a run charges the key twice, quota, wallet and provider allowing.
   */
  lemma ReachableTakeover(s: State, steps: seq<Step>, key: Key, a: RequestId, b: RequestId, c: RequestId, price: nat, v: VmId, w: VmId)
    requires Fresh(s) && CanRun(s, steps) && key.route.CreateRoute?
    requires var e := Run(s, steps);
             && Lapsed(e.records, key, e.now) && (Holds(e, a, key) || Paid(e, a, key))
             && b != c && b !in e.requests && c !in e.requests && CanAffordTwo(e, key.reseller, price, v, w)
    ensures exists more, x, y ::
              CanRun(Run(s, steps), more) && x != y
              && Paid(Run(Run(s, steps), more), x, key) && Paid(Run(Run(s, steps), more), y, key)
  {
    FreshIsConsistent(s);
    assert KeyInv(s, key, false);
    RunKeepsFit(s, steps);
    RunKeepsPhases(s, steps);
    var e := Run(s, steps);
    assert PhaseFitsJob(e.requests[a]) && ChargeFitsPhase(e.requests[a]);
    var more, x, y := LapsedRecordChargesTwice(e, a, b, c, key, price, v, w);
  }

  /**
   * For purchases: from every reachable state in which the next one with a key could take over while the key is not sealed, a run
   * with a stale save in it charges the key twice, if the reseller has a wallet and, for a service that does not exist yet, no
   * limit of services.
   */
  lemma ReachablePurchaseTakeover(s: State, steps: seq<Step>, key: Key, a: RequestId, b: RequestId, c: RequestId, r: RequestId)
    requires Fresh(s) && CanRun(s, steps) && key.route.Ipv4Route?
    requires var e := Run(s, steps);
             && !Sealed(e, key) && Afford(e.db, key.reseller, 0).Funds?
             && (key.route.service in e.db.rows || Unlimited(e.db, key.reseller))
             && Lapsed(e.records, key, e.now) && (Holds(e, a, key) || Paid(e, a, key))
             && b !in e.requests && c !in e.requests && r !in e.requests && b != c && b != r && c != r
    ensures exists more, x, y ::
              CanRun(Run(s, steps), more) && x != y
              && Paid(Run(Run(s, steps), more), x, key) && Paid(Run(Run(s, steps), more), y, key)
  {
    FreshIsConsistent(s);
    assert KeyInv(s, key, false);
    ServicesAgreeWithLedger(s, steps);
    RunKeepsFit(s, steps);
    RunKeepsPhases(s, steps);
    var more, x, y := LapsedPurchaseChargesTwice(Run(s, steps), a, b, c, r, key);
  }
}
