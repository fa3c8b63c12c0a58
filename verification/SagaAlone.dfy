// Requests that nothing interrupts: what a single call of each handler does, from its arrival to its answer, for every input
// (src/api/reseller-api.ts:1126-1332,1549-1608,2030-2100).
module SagaAlone {
  import opened Common
  import opened IdempotencyStore
  import opened ResellerDb
  import opened ResellerSaga
  import opened SagaBoundaries
  import opened SagaEarned
  import opened SagaQuota
  import opened SagaRollbacks
  import Renewals

  /** The request is told off, and its key is free again. */
  lemma IsRefused(s: State, steps: seq<Step>, t: State, id: RequestId) returns (steps': seq<Step>, t': State)
    requires Leads(s, steps, t) && id in t.requests && t.requests[id].phase.Releasing?
    ensures Leads(s, steps', t')
    ensures var r := t.requests[id];
            t' == Put(t, id, r.(phase := Finished(Refused)))
                    .(records := if r.key.None? then t.records else Released(t.records, r.key.value, r.hash))
  {
    hide Leads, Released;
    steps', t' := Extend(s, steps, t, Release(id));
  }

  /** The request is answered, and its answer recorded under its key. */
  lemma IsServed(s: State, steps: seq<Step>, t: State, id: RequestId) returns (steps': seq<Step>, t': State)
    requires Leads(s, steps, t) && id in t.requests && t.requests[id].phase.Booked?
    ensures Leads(s, steps', t')
    ensures var r := t.requests[id];
            t' == Put(t, id, r.(phase := Finished(Served(r.phase.service))))
                    .(records := if r.key.None? then t.records
                                 else CompletedRecords(t.records, r.key.value, r.hash, 200, r.phase.service, t.now, t.ttl))
  {
    hide Leads, CompletedRecords;
    steps', t' := Extend(s, steps, t, Answer(id));
  }

  /** Nothing but request `id` and the record of its key changed, and the key can be used again. */
  ghost predicate OnlyRefused(s: State, e: State, id: RequestId, key: Option<Key>) {
    && id in e.requests && e.requests[id].phase == Finished(Refused) && e.requests[id].charge.None?
    && e == s.(requests := s.requests[id := e.requests[id]], records := e.records)
    && (key.Some? ==> !Held(e.records, key.value, e.now))
    && (forall k :: key != Some(k) ==> (k in e.records <==> k in s.records) && (k in s.records ==> e.records[k] == s.records[k]))
  }

  /** The request was charged for the service, told so, and its answer stands under its key; the records of other keys stay. */
  ghost predicate IsAnswered(s: State, e: State, id: RequestId, key: Option<Key>, hash: Hash, service: ServiceId) {
    && id in e.requests && e.requests[id].phase == Finished(Served(service)) && e.requests[id].charge == Some(service)
    && e.requests == s.requests[id := e.requests[id]]
    && (key.Some? ==> key.value in e.records && e.records[key.value] == Completed(hash, 200, service, s.now, s.now + s.ttl))
    && (forall k :: key != Some(k) ==> (k in e.records <==> k in s.records) && (k in s.records ==> e.records[k] == s.records[k]))
  }

  // ---------------------------------------------------------------- renewals

  lemma RenewalIsLoaded(s: State, steps: seq<Step>, t: State, id: RequestId, reseller: ResellerId, service: ServiceId, months: nat)
    returns (steps': seq<Step>, t': State)
    requires Leads(s, steps, t) && id !in t.requests
    ensures Leads(s, steps', t')
    ensures t' == Put(t, id, Request(reseller, None, "", Renew(service, months),
                                     if service in t.db.rows && t.db.rows[service].reseller == reseller
                                     then Loaded(t.db.rows[service]) else Releasing, None))
  {
    hide Leads;
    var u: State;
    steps', u := GetsAccepted(s, steps, t, id, reseller, None, "", Renew(service, months));
    assert u == Put(t, id, Request(reseller, None, "", Renew(service, months), Accepted, None));
    steps', t' := Extend(s, steps', u, Check(id));
  }

  lemma RenewalGoesThrough(s: State, id: RequestId, service: ServiceId, months: nat) returns (steps: seq<Step>, t: State)
    requires id !in s.requests && service in s.db.rows
    requires Afford(s.db, s.db.rows[service].reseller, s.db.rows[service].renewalPrice * months).Funds?
    ensures Leads(s, steps, t) && t.records == s.records && IsAnswered(s, t, id, None, "", service)
    ensures var row := s.db.rows[service];
            t.db == RenewTx(s.db, row.reseller, service, row, row.renewalPrice * months,
                            Max(s.now, row.expireAt) + RenewedMs(months), id).db
  {
    assert Leads(s, [], s);
    hide Leads, Max, RenewedMs, Afford;
    var u, v: State;
    steps, u := RenewGetsReady(s, [], s, id, service, months);
    steps, v := RenewCommits(s, steps, u, id);
    hide RenewTx;
    steps, t := IsServed(s, steps, v, id);
  }

  lemma RenewalIsRefused(s: State, id: RequestId, reseller: ResellerId, service: ServiceId, months: nat)
    returns (steps: seq<Step>, t: State)
    requires id !in s.requests
    requires service in s.db.rows && s.db.rows[service].reseller == reseller ==>
               Afford(s.db, reseller, s.db.rows[service].renewalPrice * months).NoFunds?
    ensures Leads(s, steps, t) && OnlyRefused(s, t, id, None)
  {
    assert Leads(s, [], s);
    hide Leads, Max, RenewedMs, Afford;
    var u, v: State;
    steps, u := RenewalIsLoaded(s, [], s, id, reseller, service, months);
    v := u;
    if u.requests[id].phase.Loaded? {
      steps, v := Extend(s, steps, u, CheckFunds(id));
      assert v == Put(s, id, u.requests[id].(phase := Releasing));
    }
    steps, t := IsRefused(s, steps, v, id);
  }

  /** A renewal alone ends with the database that `Renewed` says, whatever the months, and with the one it found when it is refused. */
  lemma RenewalAlone(s: State, id: RequestId, reseller: ResellerId, service: ServiceId, months: nat) returns (steps: seq<Step>)
    requires id !in s.requests
    ensures CanRun(s, steps)
    ensures var result, e := Renewals.Renewed(s.db, reseller, service, Renewals.Renewal(months, s.now, id)), Run(s, steps);
            if result.Saved? then e.db == result.db && e.records == s.records && IsAnswered(s, e, id, None, "", service)
            else OnlyRefused(s, e, id, None)
  {
    hide Leads, Max, RenewedMs, Afford, IsAnswered, OnlyRefused;
    var t: State;
    if service in s.db.rows && s.db.rows[service].reseller == reseller
       && Afford(s.db, reseller, s.db.rows[service].renewalPrice * months).Funds? {
      steps, t := RenewalGoesThrough(s, id, service, months);
    } else {
      steps, t := RenewalIsRefused(s, id, reseller, service, months);
    }
    LeadsIs(s, steps, t);
    hide Run, CanRun;
  }

  // ---------------------------------------------------------------- purchases

  /** A claim that is given back or answered leaves the records of other keys alone. */
  lemma ClaimEnds(records: Records<ServiceId>, key: Key, hash: Hash, service: ServiceId, now: nat, ttl: nat)
    requires !Held(records, key, now)
    ensures var claimed := Claimed(records, key, hash, now, ttl);
            && !Held(Released(claimed, key, hash), key, now)
            && (forall k :: k != key ==> (k in Released(claimed, key, hash) <==> k in records))
            && (forall k :: k != key && k in records ==> Released(claimed, key, hash)[k] == records[k])
            && CompletedRecords(claimed, key, hash, 200, service, now, ttl)
               == records[key := Completed(hash, 200, service, now, now + ttl)]
  {
    BeginGrants(records, key, hash, now, ttl);
    ReleaseFrees(records, key, hash, hash, now, ttl);
  }

  /** The state behind the prelude of a request that is let in. */
  function LetIn(s: State, id: RequestId, r: Request): State {
    Put(s, id, r).(records := if r.key.None? then s.records else Claimed(s.records, r.key.value, r.hash, s.now, s.ttl))
  }

  lemma GivesBack(s: State, steps: seq<Step>, t: State, id: RequestId, r: Request) returns (steps': seq<Step>, t': State)
    requires Leads(s, steps, t) && t == LetIn(s, id, r) && r.phase.Releasing? && r.charge.None?
    requires r.key.Some? ==> !Held(s.records, r.key.value, s.now)
    ensures Leads(s, steps', t') && OnlyRefused(s, t', id, r.key)
  {
    steps', t' := GivesBackTo(s, steps, t, s, id, r);
  }

  lemma GetsAnswer(s: State, steps: seq<Step>, t: State, id: RequestId, r: Request, service: ServiceId)
    returns (steps': seq<Step>, t': State)
    requires Leads(s, steps, t) && r.phase == Booked(service) && r.charge == Some(service)
    requires t == LetIn(s, id, r).(db := t.db, live := t.live, addressed := t.addressed)
    requires r.key.Some? ==> !Held(s.records, r.key.value, s.now)
    ensures Leads(s, steps', t') && IsAnswered(s, t', id, r.key, r.hash, service)
    ensures t'.db == t.db && t'.live == t.live && t'.addressed == t.addressed
  {
    if r.key.Some? {
      ClaimEnds(s.records, r.key.value, r.hash, service, s.now, s.ttl);
    }
    hide Leads, Claimed, CompletedRecords, Held;
    steps', t' := IsServed(s, steps, t, id);
  }

  lemma PurchaseIsChecked(s: State, steps: seq<Step>, t: State, id: RequestId, r: Request) returns (steps': seq<Step>, t': State)
    requires Leads(s, steps, t) && t == LetIn(s, id, r) && r.phase.Accepted? && r.job.BuyIpv4?
    ensures Leads(s, steps', t')
    ensures var found := r.job.target in s.db.rows && s.db.rows[r.job.target].reseller == r.reseller
                         && s.db.rows[r.job.target].extraIpv4 == 0;
            t' == LetIn(s, id, r.(phase := if !found then Releasing
                                           else if Covers(s.db, r.reseller, s.monthly) then Funded else Releasing))
  {
    hide Leads, Claimed;
    AffordIsCovers(s.db, r.reseller, s.monthly);
    var u: State;
    steps', u := Extend(s, steps, t, Check(id));
    t' := u;
    if u.requests[id].phase.Checked? {
      assert u == LetIn(s, id, r.(phase := Checked));
      hide Afford;
      steps', t' := Extend(s, steps', u, CheckFunds(id));
    }
  }

  lemma PurchaseIsCommitted(s: State, steps: seq<Step>, t: State, id: RequestId, r: Request) returns (steps': seq<Step>, t': State)
    requires Leads(s, steps, t) && t == LetIn(s, id, r).(addressed := t.addressed) && r.phase.HasIpv4? && r.job.BuyIpv4?
    requires ExtraIpv4Tx(s.db, r.reseller, r.job.target, s.monthly, id).Saved?
    ensures Leads(s, steps', t')
    ensures var service := r.job.target;
            t' == LetIn(s, id, r.(phase := Booked(service), charge := Some(service)))
                    .(db := ExtraIpv4Tx(s.db, r.reseller, service, s.monthly, id).db, addressed := t.addressed)
  {
    hide Leads, Claimed;
    steps', t' := BuyCommits(s, steps, t, id);
  }

  /** Behind both checks the provider's answer decides. */
  lemma PurchaseIsAnswered(s: State, steps: seq<Step>, t: State, id: RequestId, r: Request, ok: bool)
    returns (steps': seq<Step>, t': State)
    requires Leads(s, steps, t) && t == LetIn(s, id, r) && r.phase.Funded? && r.job.BuyIpv4? && r.charge.None?
    requires r.key.Some? ==> !Held(s.records, r.key.value, s.now)
    requires ExtraIpv4Tx(s.db, r.reseller, r.job.target, s.monthly, id).Saved?
    ensures Leads(s, steps', t')
    ensures ok ==> t'.db == ExtraIpv4Tx(s.db, r.reseller, r.job.target, s.monthly, id).db && t'.addressed == s.addressed + {id}
                   && IsAnswered(s, t', id, r.key, r.hash, r.job.target)
    ensures !ok ==> OnlyRefused(s, t', id, r.key)
  {
    hide Leads, Claimed, Held, OnlyRefused, IsAnswered, ExtraIpv4Tx;
    var service := r.job.target;
    var u, v: State;
    steps', u := Extend(s, steps, t, Assign(id, ok));
    if ok {
      assert u == LetIn(s, id, r.(phase := HasIpv4)).(addressed := s.addressed + {id});
      hide Next, Enabled;
      steps', v := PurchaseIsCommitted(s, steps', u, id, r.(phase := HasIpv4));
      steps', t' := GetsAnswer(s, steps', v, id, r.(phase := Booked(service), charge := Some(service)), service);
    } else {
      assert u == LetIn(s, id, r.(phase := Releasing));
      hide Next, Enabled;
      steps', t' := GivesBack(s, steps', u, id, r.(phase := Releasing));
    }
  }

  /**
   * A purchase alone: it is charged exactly when the service is the reseller's and has no extra address, the wallet covers the monthly
   * price and the provider assigns one. Otherwise nothing changes, no address is assigned, and its key is free again.
   */
  lemma PurchaseAlone(s: State, id: RequestId, reseller: ResellerId, service: ServiceId, key: Option<Key>, hash: Hash, ok: bool)
    returns (steps: seq<Step>)
    requires id !in s.requests && KeyFits(key, reseller, BuyIpv4(service)) && (key.Some? ==> !Held(s.records, key.value, s.now))
    ensures CanRun(s, steps)
    ensures var e := Run(s, steps);
            var found := service in s.db.rows && s.db.rows[service].reseller == reseller && s.db.rows[service].extraIpv4 == 0
                         && Covers(s.db, reseller, s.monthly);
            var result := ExtraIpv4Tx(s.db, reseller, service, s.monthly, id);
            && (found && ok ==> result.Saved? && e.db == result.db && e.addressed == s.addressed + {id}
                                && IsAnswered(s, e, id, key, hash, service))
            && (!(found && ok) ==> OnlyRefused(s, e, id, key))
  {
    var t, u, v: State;
    var r := Request(reseller, key, hash, BuyIpv4(service), Accepted, None);
    assert Leads(s, [], s);
    AffordIsCovers(s.db, reseller, s.monthly);
    hide Leads, Claimed, Held, OnlyRefused, IsAnswered, Covers;
    steps, t := GetsAccepted(s, [], s, id, reseller, key, hash, BuyIpv4(service));
    steps, u := PurchaseIsChecked(s, steps, t, id, r);
    if u.requests[id].phase.Funded? {
      steps, v := PurchaseIsAnswered(s, steps, u, id, r.(phase := Funded), ok);
    } else {
      steps, v := GivesBack(s, steps, u, id, r.(phase := Releasing));
    }
    LeadsIs(s, steps, v);
    hide Run, CanRun;
  }

  // ---------------------------------------------------------------- creations

  lemma CreationIsChecked(s: State, steps: seq<Step>, t: State, id: RequestId, r: Request) returns (steps': seq<Step>, t': State)
    requires Leads(s, steps, t) && t == LetIn(s, id, r) && r.phase.Accepted? && r.job.Create?
    ensures Leads(s, steps', t')
    ensures t' == LetIn(s, id, r.(phase := if HasQuota(s.db, r.reseller) && Covers(s.db, r.reseller, r.job.price)
                                           then Funded else Releasing))
  {
    hide Leads, Claimed;
    AffordIsCovers(s.db, r.reseller, r.job.price);
    QuotaIsRoom(s.db, r.reseller);
    hide Owned, HasQuota, OverQuota;
    var u: State;
    steps', u := Extend(s, steps, t, Check(id));
    t' := u;
    if u.requests[id].phase.Checked? {
      assert u == LetIn(s, id, r.(phase := Checked));
      hide Afford;
      steps', t' := Extend(s, steps', u, CheckFunds(id));
    }
  }

  lemma CreationIsCommitted(s: State, steps: seq<Step>, t: State, id: RequestId, r: Request) returns (steps': seq<Step>, t': State)
    requires Leads(s, steps, t) && t == LetIn(s, id, r).(live := t.live) && r.phase.Unregistered? && r.job.Create?
    requires CreateTx(s.db, r.reseller, r.job.price, r.phase.vmid, s.now + MONTH_MS, id).Saved?
    ensures Leads(s, steps', t')
    ensures t' == LetIn(s, id, r.(phase := Booked(s.db.nextId), charge := Some(s.db.nextId)))
                    .(db := CreateTx(s.db, r.reseller, r.job.price, r.phase.vmid, s.now + MONTH_MS, id).db, live := t.live)
  {
    hide Leads, Claimed;
    steps', t' := CreateCommits(s, steps, t, id);
  }

  /** Behind both checks the provider's answer decides. */
  lemma CreationIsAnswered(s: State, steps: seq<Step>, t: State, id: RequestId, r: Request, vm: Option<VmId>)
    returns (steps': seq<Step>, t': State)
    requires Leads(s, steps, t) && t == LetIn(s, id, r) && r.phase.Funded? && r.job.Create? && r.charge.None?
    requires r.key.Some? ==> !Held(s.records, r.key.value, s.now)
    requires vm.Some? ==> vm.value !in s.live && !Registered(s.db, vm.value)
                          && CreateTx(s.db, r.reseller, r.job.price, vm.value, s.now + MONTH_MS, id).Saved?
    ensures Leads(s, steps', t')
    ensures vm.Some? ==> t'.db == CreateTx(s.db, r.reseller, r.job.price, vm.value, s.now + MONTH_MS, id).db
                         && t'.live == s.live + {vm.value} && IsAnswered(s, t', id, r.key, r.hash, s.db.nextId)
    ensures vm.None? ==> OnlyRefused(s, t', id, r.key)
  {
    hide Leads, Claimed, Held, OnlyRefused, IsAnswered, CreateTx, Registered;
    var u, v: State;
    if vm.Some? {
      steps', u := CreateGetsMachine(s, steps, t, id, vm.value);
      hide Next, Enabled;
      assert u == LetIn(s, id, r.(phase := Unregistered(vm.value))).(live := s.live + {vm.value});
      steps', v := CreationIsCommitted(s, steps', u, id, r.(phase := Unregistered(vm.value)));
      steps', t' := GetsAnswer(s, steps', v, id, r.(phase := Booked(s.db.nextId), charge := Some(s.db.nextId)), s.db.nextId);
    } else {
      steps', u := Extend(s, steps, t, Provision(id, None));
      hide Next, Enabled;
      steps', t' := GivesBack(s, steps', u, id, r.(phase := Releasing));
    }
  }

  /**
   * A creation alone: it is charged, and its machine stays, exactly when the quota has room, the wallet covers the price and the
   * provider gives a machine. Otherwise nothing changes, no machine is left, and its key is free again.
   */
  lemma CreationAlone(s: State, id: RequestId, reseller: ResellerId, price: nat, key: Option<Key>, hash: Hash, vm: Option<VmId>)
    returns (steps: seq<Step>)
    requires id !in s.requests && KeyFits(key, reseller, ResellerSaga.Job.Create(price))
    requires key.Some? ==> !Held(s.records, key.value, s.now)
    requires vm.Some? ==> vm.value !in s.live && !Registered(s.db, vm.value)
    ensures CanRun(s, steps)
    ensures var e := Run(s, steps);
            var charged := HasQuota(s.db, reseller) && Covers(s.db, reseller, price) && vm.Some?;
            && (charged ==>
                  && var result := CreateTx(s.db, reseller, price, vm.value, s.now + 2_592_000_000, id);
                  && result.Saved? && e.db == result.db && e.live == s.live + {vm.value}
                  && IsAnswered(s, e, id, key, hash, s.db.nextId))
            && (!charged ==> OnlyRefused(s, e, id, key))
  {
    var t, u, v: State;
    var r := Request(reseller, key, hash, ResellerSaga.Job.Create(price), Accepted, None);
    assert Leads(s, [], s);
    AffordIsCovers(s.db, reseller, price);
    hide Leads, Claimed, Held, OnlyRefused, IsAnswered, HasQuota, Covers;
    steps, t := GetsAccepted(s, [], s, id, reseller, key, hash, ResellerSaga.Job.Create(price));
    steps, u := CreationIsChecked(s, steps, t, id, r);
    if u.requests[id].phase.Funded? {
      steps, v := CreationIsAnswered(s, steps, u, id, r.(phase := Funded), vm);
    } else {
      steps, v := GivesBack(s, steps, u, id, r.(phase := Releasing));
    }
    LeadsIs(s, steps, v);
    hide Run, CanRun;
  }

  // ---------------------------------------------------------------- when the transaction throws

  lemma {:induction false} RunConcat(s: State, a: seq<Step>, b: seq<Step>)
    requires CanRun(s, a) && CanRun(Run(s, a), b)
    ensures CanRun(s, a + b) && Run(s, a + b) == Run(Run(s, a), b)
    decreases |a|
  {
    hide Enabled, Next;
    if a == [] {
      assert a + b == b;
    } else {
      assert (a + b)[1..] == a[1..] + b;
      RunConcat(Next(s, a[0]), a[1..], b);
    }
  }

  /** How many attempts the retry loop makes. */
  lemma FirstSuccess(outcomes: seq<bool>, n: nat) returns (tried: nat)
    requires n <= |outcomes|
    ensures tried <= n
    ensures (exists i :: 0 <= i < n && outcomes[i]) ==>
              tried > 0 && outcomes[tried - 1] && forall i :: 0 <= i < tried - 1 ==> !outcomes[i]
    ensures !(exists i :: 0 <= i < n && outcomes[i]) ==> tried == n
  {
    tried := 0;
    while tried < n && (tried == 0 || !outcomes[tried - 1])
      invariant tried <= n
      invariant forall i :: 0 <= i < tried - 1 ==> !outcomes[i]
    {
      tried := tried + 1;
    }
  }

  /** A rollback from its first attempt to the last one it makes. */
  lemma IsRolledBack(s: State, steps: seq<Step>, t: State, id: RequestId, v: VmId, outcomes: seq<bool>)
    returns (steps': seq<Step>, t': State)
    requires Leads(s, steps, t) && id in t.requests && t.requests[id].phase == RollingBack(v, 0) && |outcomes| == 4
    ensures Leads(s, steps', t')
    ensures t' == if true in outcomes then Move(t, id, Releasing).(live := t.live - {v})
                  else Move(t, id, Releasing).(stranded := t.stranded + {v})
  {
    var tried := FirstSuccess(outcomes, 4);
    assert true in outcomes <==> exists i :: 0 <= i < 4 && outcomes[i];
    RollbackIsRetry(t, id, v, outcomes, true in outcomes, tried);
    steps' := steps + Deletions(id, outcomes[..tried]);
    t' := Run(t, Deletions(id, outcomes[..tried]));
    RunConcat(s, steps, Deletions(id, outcomes[..tried]));
  }

  /** A creation that has its machine but cannot book it is about to roll back. */
  lemma CannotBook(s: State, steps: seq<Step>, t: State, id: RequestId, v: VmId) returns (steps': seq<Step>, t': State)
    requires Leads(s, steps, t) && id in t.requests && t.requests[id].phase == HasVm(v) && t.requests[id].job.Create?
    ensures Leads(s, steps', t') && t' == Move(t, id, RollingBack(v, 0))
  {
    hide Leads, Registered, CreateTx;
    var u: State;
    steps', u := Extend(s, steps, t, CheckVmid(id));
    t' := u;
    if u.requests[id].phase.Unregistered? {
      assert u == Move(t, id, Unregistered(v));
      steps', t' := Extend(s, steps', u, Commit(id, true));
    }
  }

  lemma CreationCannotBook(s: State, steps: seq<Step>, t: State, id: RequestId, r: Request, v: VmId)
    returns (steps': seq<Step>, t': State)
    requires Leads(s, steps, t) && t == LetIn(s, id, r) && r.phase.Funded? && r.job.Create? && v !in s.live
    ensures Leads(s, steps', t')
    ensures t' == LetIn(s, id, r.(phase := RollingBack(v, 0))).(live := s.live + {v})
  {
    hide Leads, Claimed;
    var u: State;
    steps', u := Extend(s, steps, t, Provision(id, Some(v)));
    assert u == LetIn(s, id, r.(phase := HasVm(v))).(live := s.live + {v});
    hide Next, Enabled;
    steps', t' := CannotBook(s, steps', u, id, v);
  }

  /**
   * A creation whose transaction throws, or whose machine already has a row: nothing is charged, the key is free again, and the machine
   * is gone if and only if one of four attempts to delete it succeeds; otherwise it is on record as left over.
   */
  lemma CreationRollsBack(s: State, id: RequestId, reseller: ResellerId, price: nat, key: Option<Key>, hash: Hash, v: VmId,
                          outcomes: seq<bool>) returns (steps: seq<Step>)
    requires id !in s.requests && KeyFits(key, reseller, ResellerSaga.Job.Create(price))
    requires key.Some? ==> !Held(s.records, key.value, s.now)
    requires HasQuota(s.db, reseller) && Covers(s.db, reseller, price) && v !in s.live && |outcomes| == 4
    ensures CanRun(s, steps)
    ensures var e := Run(s, steps);
            && OnlyRefused(s, e.(live := s.live, stranded := s.stranded), id, key)
            && e.live == (if true in outcomes then s.live else s.live + {v})
            && e.stranded == (if true in outcomes then s.stranded else s.stranded + {v})
  {
    var t, u, w, x, y: State;
    var r := Request(reseller, key, hash, ResellerSaga.Job.Create(price), Accepted, None);
    assert Leads(s, [], s);
    hide Leads, Claimed, Held, OnlyRefused, HasQuota, Covers;
    steps, t := GetsAccepted(s, [], s, id, reseller, key, hash, ResellerSaga.Job.Create(price));
    steps, u := CreationIsChecked(s, steps, t, id, r);
    assert u == LetIn(s, id, r.(phase := Funded));
    steps, w := CreationCannotBook(s, steps, u, id, r.(phase := Funded), v);
    steps, x := IsRolledBack(s, steps, w, id, v, outcomes);
    var s' := s.(live := x.live, stranded := x.stranded);
    assert x == LetIn(s', id, r.(phase := Releasing));
    steps, y := GivesBackTo(s, steps, x, s', id, r.(phase := Releasing));
    assert y.live == x.live && y.stranded == x.stranded by { RefusedKeeps(s', y, id, key); }
    assert OnlyRefused(s, y.(live := s.live, stranded := s.stranded), id, key) by { RefusedElsewhere(s, s', y, id, key); }
    assert s.live + {v} - {v} == s.live;
    LeadsIs(s, steps, y);
  }

  /** `GivesBack`, with the state that the request found named apart from the one the run began in. */
  lemma GivesBackTo(s: State, steps: seq<Step>, t: State, s': State, id: RequestId, r: Request) returns (steps': seq<Step>, t': State)
    requires Leads(s, steps, t) && t == LetIn(s', id, r) && r.phase.Releasing? && r.charge.None?
    requires r.key.Some? ==> !Held(s'.records, r.key.value, s'.now)
    ensures Leads(s, steps', t') && OnlyRefused(s', t', id, r.key)
  {
    if r.key.Some? {
      ClaimEnds(s'.records, r.key.value, r.hash, 0, s'.now, s'.ttl);
    }
    hide Leads, Claimed, Released, Held;
    steps', t' := IsRefused(s, steps, t, id);
  }

  lemma RefusedKeeps(s: State, e: State, id: RequestId, key: Option<Key>)
    requires OnlyRefused(s, e, id, key)
    ensures e.live == s.live && e.stranded == s.stranded
  {
  }

  lemma RefusedElsewhere(s: State, s': State, e: State, id: RequestId, key: Option<Key>)
    requires OnlyRefused(s', e, id, key) && s' == s.(live := s'.live, stranded := s'.stranded)
    ensures OnlyRefused(s, e.(live := s.live, stranded := s.stranded), id, key)
  {
  }

  /**
   * A purchase whose transaction throws: nothing is charged, and although the provider assigned an address the handler ends without
   * giving the key back, so the key stays claimed for one lease.
   */
  lemma PurchaseThrows(s: State, id: RequestId, reseller: ResellerId, service: ServiceId, key: Key, hash: Hash)
    returns (steps: seq<Step>)
    requires id !in s.requests && KeyFits(Some(key), reseller, BuyIpv4(service)) && !Held(s.records, key, s.now)
    requires service in s.db.rows && s.db.rows[service].reseller == reseller && s.db.rows[service].extraIpv4 == 0
    requires Covers(s.db, reseller, s.monthly)
    ensures CanRun(s, steps)
    ensures var e := Run(s, steps);
            && e.db == s.db && e.addressed == s.addressed + {id}
            && id in e.requests && e.requests[id].phase == Crashed(None) && e.requests[id].charge.None?
            && (forall later :: s.now <= later < s.now + Min(LEASE_MS, s.ttl) ==> Held(e.records, key, later))
  {
    var t, u, v: State;
    var r := Request(reseller, Some(key), hash, BuyIpv4(service), Accepted, None);
    assert Leads(s, [], s);
    BeginGrants(s.records, key, hash, s.now, s.ttl);
    hide Leads, Claimed, Held, Covers;
    steps, t := GetsAccepted(s, [], s, id, reseller, Some(key), hash, BuyIpv4(service));
    steps, u := PurchaseIsChecked(s, steps, t, id, r);
    steps, v := ThrowsWithAddress(s, steps, u, id);
    assert v.records == t.records && v.db == s.db;
    LeadsIs(s, steps, v);
    hide Run, CanRun;
  }

  lemma ThrowsWithAddress(s: State, steps: seq<Step>, t: State, id: RequestId) returns (steps': seq<Step>, t': State)
    requires Leads(s, steps, t) && id in t.requests && t.requests[id].phase.Funded? && t.requests[id].job.BuyIpv4?
    ensures Leads(s, steps', t') && t' == Move(t, id, Crashed(None)).(addressed := t.addressed + {id})
  {
    hide Leads, ExtraIpv4Tx;
    var u: State;
    steps', u := Extend(s, steps, t, Assign(id, true));
    assert u == Move(t, id, HasIpv4).(addressed := t.addressed + {id});
    steps', t' := Extend(s, steps', u, Commit(id, true));
  }

  /** A renewal whose transaction throws changes nothing; it has no key to give back. */
  lemma RenewalThrows(s: State, id: RequestId, service: ServiceId, months: nat) returns (steps: seq<Step>)
    requires id !in s.requests && service in s.db.rows
    requires Covers(s.db, s.db.rows[service].reseller, s.db.rows[service].renewalPrice * months)
    ensures CanRun(s, steps)
    ensures var e := Run(s, steps);
            && id in e.requests && e.requests[id].phase == Crashed(None) && e.requests[id].charge.None?
            && e == s.(requests := s.requests[id := e.requests[id]])
  {
    var t, u: State;
    assert Leads(s, [], s);
    AffordIsCovers(s.db, s.db.rows[service].reseller, s.db.rows[service].renewalPrice * months);
    hide Leads, RenewTx, Max, RenewedMs;
    steps, t := RenewGetsReady(s, [], s, id, service, months);
    steps, u := Extend(s, steps, t, Commit(id, true));
    LeadsIs(s, steps, u);
  }
}
