// The undisturbed handlers, and runs that show where the guarantees of the saga end.
module SagaBoundaries {
  import opened Common
  import opened IdempotencyStore
  import opened ResellerDb
  import opened ResellerSaga
  import SagaKeys
  import opened SagaQuota
  import opened SagaServices

  // ---------------------------------------------------------------- extending runs

  lemma {:induction false} RunSnoc(s: State, steps: seq<Step>, e: Step)
    requires CanRun(s, steps) && Enabled(Run(s, steps), e)
    ensures CanRun(s, steps + [e]) && Run(s, steps + [e]) == Next(Run(s, steps), e)
    decreases |steps|
  {
    if steps == [] {
      assert steps + [e] == [e];
      assert CanRun(Next(s, e), [e][1..]);
    } else {
      assert (steps + [e])[1..] == steps[1..] + [e];
      RunSnoc(Next(s, steps[0]), steps[1..], e);
    }
  }

  /** `steps` lead from `s` to `t`. */
  ghost predicate Leads(s: State, steps: seq<Step>, t: State) {
    CanRun(s, steps) && Run(s, steps) == t
  }

  lemma Extend(s: State, steps: seq<Step>, t: State, e: Step) returns (steps': seq<Step>, t': State)
    requires Leads(s, steps, t) && Enabled(t, e)
    ensures Leads(s, steps', t') && t' == Next(t, e) && steps' == steps + [e]
  {
    RunSnoc(s, steps, e);
    steps', t' := steps + [e], Next(t, e);
  }

  // ---------------------------------------------------------------- undisturbed requests

  /** A create request that nothing stops gets as far as its transaction, holding its key if it came with one. */
  lemma CreateGetsReady(s: State, steps: seq<Step>, t: State, id: RequestId, reseller: ResellerId, key: Option<Key>, hash: Hash,
                        price: nat, v: VmId)
    returns (steps': seq<Step>, t': State)
    requires Leads(s, steps, t)
    requires id !in t.requests && KeyFits(key, reseller, Create(price))
    requires (key.Some? ==> !Held(t.records, key.value, t.now)) && !OverQuota(t.db, reseller)
    requires Afford(t.db, reseller, price).Funds? && v !in t.live && !Registered(t.db, v)
    ensures Leads(s, steps', t')
    ensures t' == t.(requests := t.requests[id := Request(reseller, key, hash, Create(price), Unregistered(v), None)],
                     records := if key.None? then t.records else Claimed(t.records, key.value, hash, t.now, t.ttl),
                     live := t.live + {v})
  {
    hide Run, CanRun, Leads, Claimed;
    steps', t' := GetsAccepted(s, steps, t, id, reseller, key, hash, Create(price));
    hide Next, Enabled, Afford, OverQuota, Registered;
    steps', t' := CreateIsFunded(s, steps', t', id);
    steps', t' := CreateGetsMachine(s, steps', t', id, v);
  }

  /** A new request passes the prelude unless its key is held. */
  lemma GetsAccepted(s: State, steps: seq<Step>, t: State, id: RequestId, reseller: ResellerId, key: Option<Key>, hash: Hash, job: Job)
    returns (steps': seq<Step>, t': State)
    requires Leads(s, steps, t) && id !in t.requests && KeyFits(key, reseller, job)
    requires key.Some? ==> !Held(t.records, key.value, t.now)
    ensures Leads(s, steps', t')
    ensures t' == Put(t, id, Request(reseller, key, hash, job, Accepted, None))
                    .(records := if key.None? then t.records else Claimed(t.records, key.value, hash, t.now, t.ttl))
  {
    hide Run, CanRun, Leads, Claimed;
    steps', t' := Extend(s, steps, t, Arrive(id, reseller, key, hash, job));
    assert t' == Put(t, id, Request(reseller, key, hash, job, Arrived, None));
    if key.Some? {
      steps', t' := ClaimsKey(s, steps', t', id, key.value);
    } else {
      steps', t' := Extend(s, steps', t', Prelude(id));
    }
  }

  lemma CreateIsFunded(s: State, steps: seq<Step>, t: State, id: RequestId) returns (steps': seq<Step>, t': State)
    requires Leads(s, steps, t)
    requires id in t.requests && t.requests[id].phase.Accepted? && t.requests[id].job.Create?
    requires !OverQuota(t.db, t.requests[id].reseller) && Afford(t.db, t.requests[id].reseller, t.requests[id].job.price).Funds?
    ensures Leads(s, steps', t') && t' == Move(t, id, Funded)
  {
    hide Run, CanRun, Leads, OverQuota, Afford;
    steps', t' := Extend(s, steps, t, Check(id));
    assert t' == Move(t, id, Checked);
    steps', t' := Extend(s, steps', t', CheckFunds(id));
  }

  lemma CreateGetsMachine(s: State, steps: seq<Step>, t: State, id: RequestId, v: VmId) returns (steps': seq<Step>, t': State)
    requires Leads(s, steps, t)
    requires id in t.requests && t.requests[id].phase.Funded? && t.requests[id].job.Create?
    requires v !in t.live && !Registered(t.db, v)
    ensures Leads(s, steps', t') && t' == Move(t, id, Unregistered(v)).(live := t.live + {v})
  {
    hide Run, CanRun, Leads, Registered;
    steps', t' := Extend(s, steps, t, Provision(id, Some(v)));
    assert t' == Move(t, id, HasVm(v)).(live := t.live + {v});
    steps', t' := Extend(s, steps', t', CheckVmid(id));
  }

  lemma ClaimsKey(s: State, steps: seq<Step>, t: State, id: RequestId, key: Key) returns (steps': seq<Step>, t': State)
    requires Leads(s, steps, t)
    requires id in t.requests && t.requests[id].phase.Arrived? && t.requests[id].key == Some(key) && !Held(t.records, key, t.now)
    ensures Leads(s, steps', t')
    ensures t' == Put(t, id, t.requests[id].(phase := Accepted))
                    .(records := Claimed(t.records, key, t.requests[id].hash, t.now, t.ttl))
  {
    hide Run, CanRun, Leads;
    BeginGrants(t.records, key, t.requests[id].hash, t.now, t.ttl);
    steps', t' := Extend(s, steps, t, Prelude(id));
  }

  /** And its transaction goes through while the wallet still covers the price. */
  lemma CreateCommits(s: State, steps: seq<Step>, t: State, id: RequestId) returns (steps': seq<Step>, t': State)
    requires Leads(s, steps, t)
    requires id in t.requests && t.requests[id].phase.Unregistered? && t.requests[id].job.Create?
    requires Afford(t.db, t.requests[id].reseller, t.requests[id].job.price).Funds?
    requires !Registered(t.db, t.requests[id].phase.vmid)
    ensures Leads(s, steps', t')
    ensures t' == t.(requests := t.requests[id := t.requests[id].(phase := Booked(t.db.nextId), charge := Some(t.db.nextId))],
                     db := CreateTx(t.db, t.requests[id].reseller, t.requests[id].job.price, t.requests[id].phase.vmid,
                                    t.now + MONTH_MS, id).db)
  {
    steps', t' := Extend(s, steps, t, Commit(id, false));
  }

  /** A purchase of an extra address that nothing stops gets as far as its transaction, holding its key if it came with one. */
  lemma BuyGetsReady(s: State, steps: seq<Step>, t: State, id: RequestId, service: ServiceId, key: Option<Key>, hash: Hash)
    returns (steps': seq<Step>, t': State)
    requires Leads(s, steps, t)
    requires id !in t.requests && service in t.db.rows && t.db.rows[service].extraIpv4 < MAX_EXTRA_IPV4
    requires KeyFits(key, t.db.rows[service].reseller, BuyIpv4(service)) && (key.Some? ==> !Held(t.records, key.value, t.now))
    requires Afford(t.db, t.db.rows[service].reseller, t.monthly).Funds?
    ensures Leads(s, steps', t')
    ensures t' == t.(requests := t.requests[id := Request(t.db.rows[service].reseller, key, hash, BuyIpv4(service), HasIpv4, None)],
                     records := if key.None? then t.records else Claimed(t.records, key.value, hash, t.now, t.ttl),
                     addressed := t.addressed + {id})
  {
    hide Run, CanRun, Leads, Claimed;
    steps', t' := GetsAccepted(s, steps, t, id, t.db.rows[service].reseller, key, hash, BuyIpv4(service));
    hide Enabled, Next;
    steps', t' := BuyerGetsAddress(s, steps', t', id);
  }

  lemma BuyerGetsAddress(s: State, steps: seq<Step>, t: State, id: RequestId) returns (steps': seq<Step>, t': State)
    requires Leads(s, steps, t)
    requires id in t.requests && t.requests[id].phase.Accepted? && t.requests[id].job.BuyIpv4?
    requires var service := t.requests[id].job.target;
             && service in t.db.rows && t.db.rows[service].extraIpv4 < MAX_EXTRA_IPV4
             && t.db.rows[service].reseller == t.requests[id].reseller
    requires Afford(t.db, t.requests[id].reseller, t.monthly).Funds?
    ensures Leads(s, steps', t') && t' == Move(t, id, HasIpv4).(addressed := t.addressed + {id})
  {
    hide Run, CanRun, Leads;
    steps', t' := Extend(s, steps, t, Check(id));
    assert t' == Move(t, id, Checked);
    steps', t' := Extend(s, steps', t', CheckFunds(id));
    assert t' == Move(t, id, Funded);
    steps', t' := Extend(s, steps', t', Assign(id, true));
  }

  lemma BuyCommits(s: State, steps: seq<Step>, t: State, id: RequestId) returns (steps': seq<Step>, t': State)
    requires Leads(s, steps, t)
    requires id in t.requests && t.requests[id].phase.HasIpv4? && t.requests[id].job.BuyIpv4?
    requires ExtraIpv4Tx(t.db, t.requests[id].reseller, t.requests[id].job.target, t.monthly, id).Saved?
    ensures Leads(s, steps', t')
    ensures var service := t.requests[id].job.target;
            t' == t.(requests := t.requests[id := t.requests[id].(phase := Booked(service), charge := Some(service))],
                     db := ExtraIpv4Tx(t.db, t.requests[id].reseller, service, t.monthly, id).db)
  {
    steps', t' := Extend(s, steps, t, Commit(id, false));
  }

  /** A renewal that nothing stops gets as far as its transaction, holding the row it read and the price of all its months. */
  lemma RenewGetsReady(s: State, steps: seq<Step>, t: State, id: RequestId, service: ServiceId, months: nat)
    returns (steps': seq<Step>, t': State)
    requires Leads(s, steps, t)
    requires id !in t.requests && service in t.db.rows
    requires Afford(t.db, t.db.rows[service].reseller, t.db.rows[service].renewalPrice * months).Funds?
    ensures Leads(s, steps', t')
    ensures var row := t.db.rows[service];
            t' == t.(requests := t.requests[id := Request(row.reseller, None, "", Renew(service, months),
                       Priced(row, row.renewalPrice * months, Max(t.now, row.expireAt) + RenewedMs(months)), None)])
  {
    hide Run, CanRun, Leads, RenewedMs, Max;
    var row := t.db.rows[service];
    var u: State;
    steps', u := GetsAccepted(s, steps, t, id, row.reseller, None, "", Renew(service, months));
    assert u == Put(t, id, Request(row.reseller, None, "", Renew(service, months), Accepted, None));
    var v: State;
    steps', v := Extend(s, steps', u, Check(id));
    assert v == Put(t, id, Request(row.reseller, None, "", Renew(service, months), Loaded(row), None));
    steps', t' := Extend(s, steps', v, CheckFunds(id));
  }

  // ---------------------------------------------------------------- where the guarantees end

  /**
   * From every state in which a create request is ready to commit but its claim has run out: a second request with the same
   * key and body can be let in, and both be charged, whenever quota and wallet allow.
   */
  lemma LapsedClaimChargesTwice(s: State, a: RequestId, b: RequestId, key: Key, v: VmId) returns (steps: seq<Step>)
    requires a in s.requests && b !in s.requests && s.requests[a].job.Create?
    requires s.requests[a].key == Some(key) && s.requests[a].phase.Unregistered?
    requires KeyFits(Some(key), s.requests[a].reseller, s.requests[a].job)
    requires SagaKeys.Lapsed(s.records, key, s.now)
    requires !OverQuota(s.db, s.requests[a].reseller) && Afford(s.db, s.requests[a].reseller, 2 * s.requests[a].job.price).Funds?
    requires s.requests[a].phase.vmid in s.live && !Registered(s.db, s.requests[a].phase.vmid)
    requires v !in s.live && !Registered(s.db, v)
    ensures CanRun(s, steps)
    ensures var e := Run(s, steps);
            SagaKeys.Paid(e, a, key) && SagaKeys.Paid(e, b, key) && e.requests[a].hash == e.requests[b].hash
  {
    var r := s.requests[a];
    var t: State;
    assert Leads(s, [], s);
    steps, t := CreateGetsReady(s, [], s, b, r.reseller, Some(key), r.hash, r.job.price, v);
    hide Leads, Run, CanRun;
    var u := t;
    steps, t := CreateCommits(s, steps, t, a);
    assert t.db.rows == s.db.rows[s.db.nextId := t.db.rows[s.db.nextId]] && t.db.rows[s.db.nextId].vmid == r.phase.vmid;
    assert !Registered(t.db, v);
    assert Afford(t.db, r.reseller, r.job.price).Funds?;
    assert t.requests[b] == u.requests[b];
    var w := t;
    steps, t := CreateCommits(s, steps, t, b);
    assert t.requests[a] == w.requests[a];
    LeadsIs(s, steps, t);
  }

  lemma LeadsIs(s: State, steps: seq<Step>, t: State)
    requires Leads(s, steps, t)
    ensures CanRun(s, steps) && Run(s, steps) == t
  {
  }

  const SHOP_KEY: Key := Key(0, CreateRoute, "key")

  /** One reseller with a quota of one service and money for several; a store that keeps entries for an hour. */
  function Shop(): State {
    State(0, 3_600_000, 1800, map[],
          Db(map[0 := Reseller(Some(0), 1)], map[0 := 100_000], map[], 0, []),
          {}, {}, {}, {}, map[])
  }

  /**
   * A handler that is still busy when its lease ends: a second request with the same key and body is let in, and both
   * are charged. The same run takes the reseller past its quota, with two requests in flight.
   */
  lemma LeaseRunsOut() returns (steps: seq<Step>)
    ensures Fresh(Shop()) && CanRun(Shop(), steps)
    ensures var e := Run(Shop(), steps);
            && e.now == LEASE_MS
            && SagaKeys.Paid(e, 0, SHOP_KEY) && SagaKeys.Paid(e, 1, SHOP_KEY) && e.requests[0].hash == e.requests[1].hash
            && |Owned(e.db, 0)| == 2 > Shop().db.resellers[0].maxVps
  {
    var s := Shop();
    assert Leads(s, [], s);
    var t: State;
    steps, t := CreateGetsReady(s, [], s, 0, 0, Some(SHOP_KEY), "body", 500, 7);
    steps, t := Extend(s, steps, t, Tick(LEASE_MS));
    assert !Held(t.records, SHOP_KEY, t.now);
    steps, t := CreateGetsReady(s, steps, t, 1, 0, Some(SHOP_KEY), "body", 500, 8);
    var u := t;
    steps, t := CreateCommits(s, steps, t, 0);
    assert t.db.rows == map[0 := Row(7, 0, 500, 0, u.now + MONTH_MS)] && t.requests[1] == u.requests[1];
    steps, t := CreateCommits(s, steps, t, 1);
    assert t.db.rows.Keys == {0, 1};
    assert Owned(t.db, 0) == {0, 1};
  }

  /**
   * From every state in which a renewal is about to write back fewer addresses than the row counts: it can commit, and while the
   * wallet covers it a further purchase commits behind it, past the limit.
   */
  lemma StaleRenewalSellsAnother(s: State, id: RequestId, b: RequestId) returns (steps: seq<Step>)
    requires ServicesInv(s) && id in s.requests && b !in s.requests && s.requests[id].phase.Priced?
    requires s.requests[id].job.target in s.db.rows && s.requests[id].job.target !in s.overwritten
    requires s.requests[id].phase.snapshot.extraIpv4 < s.db.rows[s.requests[id].job.target].extraIpv4
    requires Afford(s.db, s.requests[id].reseller, s.requests[id].phase.amount + s.monthly).Funds?
    ensures CanRun(s, steps)
    ensures Charges(Run(s, steps).db.history, s.requests[id].job.target, ExtraIpv4) > MAX_EXTRA_IPV4
  {
    var r := s.requests[id];
    var target := r.job.target;
    assert SnapshotFits(s, r, r.phase.snapshot) && RowFits(s, target);
    assert Leads(s, [], s);
    hide Leads, Charges, Charged;
    var t, u, v: State;
    steps, t := RenewCommits(s, [], s, id);
    var m := t.db.history[|s.db.history|];
    AppendedCharges(s.db.history, m, target, ExtraIpv4);
    assert t.db.rows[target].reseller == r.reseller && Afford(t.db, r.reseller, t.monthly).Funds?;
    steps, u := BuyGetsReady(s, steps, t, b, target, None, "");
    steps, v := BuyCommits(s, steps, u, b);
    AppendedCharges(t.db.history, v.db.history[|t.db.history|], target, ExtraIpv4);
    LeadsIs(s, steps, v);
  }

  /**
   * A renewal that read its row before a purchase and saves it behind one: the purchase is charged but forgotten by the
   * row, so a second one is sold. Two charges, a limit of one, and a renewal price that counts one.
   */
  lemma RenewalForgetsAddress() returns (steps: seq<Step>)
    ensures Fresh(Shop()) && CanRun(Shop(), steps)
    ensures var e := Run(Shop(), steps);
            && 0 in e.db.rows && 0 in e.overwritten
            && Charges(e.db.history, 0, ExtraIpv4) == 2 > MAX_EXTRA_IPV4
            && e.db.rows[0].extraIpv4 == 1 && e.db.rows[0].renewalPrice == 500 + e.monthly
  {
    var t: State;
    steps, t := RenewalOverwrites();
    steps, t := BuyGetsReady(Shop(), steps, t, 3, 0, None, "");
    steps, t := BuyCommits(Shop(), steps, t, 3);
    TwoAddressesCharged();
  }

  /** The movements of the run. */
  function ForgottenHistory(): seq<Movement> {
    [Debit(0, 500, 99_500, ServiceCreate, 0, 0), Debit(0, 1800, 97_700, ExtraIpv4, 0, 2), Debit(0, 500, 97_200, ServiceRenew, 0, 1)]
  }

  lemma TwoAddressesCharged()
    ensures Charges(ForgottenHistory() + [Debit(0, 1800, 95_400, ExtraIpv4, 0, 3)], 0, ExtraIpv4) == 2
  {
    var h := ForgottenHistory();
    assert h == (([] + [h[0]]) + [h[1]]) + [h[2]];
    AppendedCharges([], h[0], 0, ExtraIpv4);
    AppendedCharges([] + [h[0]], h[1], 0, ExtraIpv4);
    AppendedCharges(([] + [h[0]]) + [h[1]], h[2], 0, ExtraIpv4);
    AppendedCharges(h, Debit(0, 1800, 95_400, ExtraIpv4, 0, 3), 0, ExtraIpv4);
  }

  /** The shop with one service, paid for by request 0. */
  predicate HasService(t: State) {
    && t.db == Db(Shop().db.resellers, map[0 := 99_500], map[0 := Row(7, 0, 500, 0, MONTH_MS)], 1, ForgottenHistory()[..1])
    && t.requests.Keys == {0} && t.overwritten == {} && t.monthly == 1800 && t.now == 0
  }

  lemma ShopSells() returns (steps: seq<Step>, t: State)
    ensures Leads(Shop(), steps, t) && HasService(t)
  {
    var s := Shop();
    assert Leads(s, [], s);
    hide Leads;
    steps, t := CreateGetsReady(s, [], s, 0, 0, Some(SHOP_KEY), "body", 500, 7);
    steps, t := CreateCommits(s, steps, t, 0);
    assert t.db.rows == map[0 := Row(7, 0, 500, 0, MONTH_MS)] && t.db.history == ForgottenHistory()[..1];
  }

  /** Request 1 has read the row of the service for a renewal, and request 2 has bought an address since. */
  predicate HasStaleRenewal(t: State) {
    && t.db == Db(Shop().db.resellers, map[0 := 97_700], map[0 := Row(7, 0, 2300, 1, MONTH_MS)], 1, ForgottenHistory()[..2])
    && t.requests.Keys == {0, 1, 2} && t.overwritten == {} && t.monthly == 1800
    && t.requests[1] == Request(0, None, "", Renew(0, 1), Priced(Row(7, 0, 500, 0, MONTH_MS), 500, 2 * MONTH_MS), None)
  }

  lemma AddressIsSold(t: State, steps: seq<Step>) returns (steps': seq<Step>, t': State)
    requires Leads(Shop(), steps, t) && HasService(t)
    ensures Leads(Shop(), steps', t') && HasStaleRenewal(t')
  {
    hide Leads;
    steps', t' := RenewGetsReady(Shop(), steps, t, 1, 0, 1);
    var u := t';
    steps', t' := BuyGetsReady(Shop(), steps', t', 2, 0, None, "");
    assert t'.requests[1] == u.requests[1];
    var v := t';
    steps', t' := BuyCommits(Shop(), steps', t', 2);
    assert t'.requests[1] == v.requests[1];
    assert t'.db.rows == map[0 := Row(7, 0, 2300, 1, MONTH_MS)] && t'.db.history == ForgottenHistory()[..2];
  }

  lemma RenewalOverwrites() returns (steps: seq<Step>, t: State)
    ensures Leads(Shop(), steps, t)
    ensures t.db.history == ForgottenHistory() && t.monthly == 1800
    ensures t.db.resellers == Shop().db.resellers && t.db.balances == map[0 := 97_200]
    ensures t.db.rows == map[0 := Row(7, 0, 500, 0, 2 * MONTH_MS)] && 0 in t.overwritten && 3 !in t.requests
  {
    hide Leads;
    steps, t := ShopSells();
    steps, t := AddressIsSold(t, steps);
    steps, t := RenewCommits(Shop(), steps, t, 1);
    assert t.db.history == ForgottenHistory();
  }

  lemma RenewCommits(s: State, steps: seq<Step>, t: State, id: RequestId) returns (steps': seq<Step>, t': State)
    requires Leads(s, steps, t)
    requires id in t.requests && t.requests[id].phase.Priced? && t.requests[id].job.Renew?
    requires t.requests[id].job.target in t.db.rows
    requires Afford(t.db, t.requests[id].reseller, t.requests[id].phase.amount).Funds?
    ensures Leads(s, steps', t')
    ensures var r := t.requests[id];
            var service := r.job.target;
            t' == t.(requests := t.requests[id := r.(phase := Booked(service), charge := Some(service))],
                     db := RenewTx(t.db, r.reseller, service, r.phase.snapshot, r.phase.amount, r.phase.expire, id).db,
                     overwritten := if t.db.rows[service].extraIpv4 != r.phase.snapshot.extraIpv4 then t.overwritten + {service}
                                    else t.overwritten)
  {
    steps', t' := Extend(s, steps, t, Commit(id, false));
  }
}
