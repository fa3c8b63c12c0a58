// Why the claim of a creation that has run out must not be taken over from a request that is still at work or was charged
// (src/infrastructure/redis/reseller-security-store.ts:71-92, src/api/reseller-api.ts:492-530).
module SagaTakeovers {
  import opened Common
  import opened IdempotencyStore
  import opened ResellerDb
  import opened ResellerSaga
  import opened SagaKeys
  import opened SagaBoundaries

  // ---------------------------------------------------------------- phases and jobs

  /** Every phase belongs to its kind of request. */
  predicate PhaseFitsJob(r: Request) {
    match r.phase
    case Loaded(_) => r.job.Renew?
    case Priced(_, _, _) => r.job.Renew?
    case Checked => !r.job.Renew?
    case Funded => !r.job.Renew?
    case HasVm(_) => r.job.Create?
    case Unregistered(_) => r.job.Create?
    case HasIpv4 => r.job.BuyIpv4?
    case _ => true
  }

  ghost predicate PhasesFit(s: State) {
    forall id :: id in s.requests ==> PhaseFitsJob(s.requests[id])
  }

  lemma StepKeepsPhases(s: State, e: Step)
    requires PhasesFit(s) && Enabled(s, e)
    ensures PhasesFit(Next(s, e))
  {
    OnlyItsRequest(s, e);
    if !e.Tick? && !e.Pay? {
      OwnPhaseFits(s, e);
    }
    hide Next, Enabled;
  }

  lemma OwnPhaseFits(s: State, e: Step)
    requires PhasesFit(s) && Enabled(s, e) && !e.Tick? && !e.Pay?
    ensures e.id in Next(s, e).requests && PhaseFitsJob(Next(s, e).requests[e.id])
  {
    if e.Commit? {
      hide Begun, Released, CompletedRecords, Afford, Registered, OverQuota, CreateTx, ExtraIpv4Tx, RenewTx;
    } else {
      QuietPhaseFits(s, e);
      hide Next, Enabled;
    }
  }

  lemma QuietPhaseFits(s: State, e: Step)
    requires PhasesFit(s) && Enabled(s, e) && !e.Tick? && !e.Pay? && !e.Commit?
    ensures e.id in Next(s, e).requests && PhaseFitsJob(Next(s, e).requests[e.id])
  {
    hide Begun, Released, CompletedRecords, Afford, Registered, OverQuota, Committed, RenewedMs;
  }

  // ---------------------------------------------------------------- a request that gives up

  /** The request can be made to give up before it is charged. */
  predicate CanGiveUp(r: Request) {
    && r.charge.None? && !r.job.Renew?
    && match r.phase
       case Accepted => true
       case Checked => true
       case Funded => true
       case HasVm(_) => r.job.Create?
       case Unregistered(_) => r.job.Create?
       case RollingBack(_, _) => true
       case Releasing => true
       case _ => false
  }

  /** `t` is `s` with request `a` about to give its key back, and perhaps without its machine. */
  predicate GaveUp(s: State, t: State, a: RequestId) {
    && a in s.requests && t == s.(requests := s.requests[a := s.requests[a].(phase := Releasing)], live := t.live)
    && t.live <= s.live
  }

  lemma DeletesAndReleases(s: State, steps: seq<Step>, t: State, a: RequestId) returns (steps': seq<Step>, t': State)
    requires Leads(s, steps, t) && a in t.requests && t.requests[a].phase.RollingBack?
    ensures Leads(s, steps', t') && GaveUp(t, t', a)
  {
    steps', t' := Extend(s, steps, t, DeleteVm(a, true));
  }

  lemma RollsBack(s: State, steps: seq<Step>, t: State, a: RequestId) returns (steps': seq<Step>, t': State)
    requires Leads(s, steps, t) && a in t.requests && t.requests[a].phase.Unregistered? && t.requests[a].job.Create?
    ensures Leads(s, steps', t')
    ensures t' == Move(t, a, RollingBack(t.requests[a].phase.vmid, 0))
  {
    hide Leads, CreateTx;
    steps', t' := Extend(s, steps, t, Commit(a, true));
  }

  lemma ChecksVmid(s: State, steps: seq<Step>, t: State, a: RequestId) returns (steps': seq<Step>, t': State)
    requires Leads(s, steps, t) && a in t.requests && t.requests[a].phase.HasVm? && t.requests[a].job.Create?
    ensures Leads(s, steps', t')
    ensures t' == Move(t, a, RollingBack(t.requests[a].phase.vmid, 0))
  {
    hide Leads, Registered;
    steps', t' := Extend(s, steps, t, CheckVmid(a));
    if t'.requests[a].phase.Unregistered? {
      var u := t';
      steps', t' := RollsBack(s, steps', u, a);
    }
  }

  lemma GivesUp(s: State, steps: seq<Step>, t: State, a: RequestId) returns (steps': seq<Step>, t': State)
    requires Leads(s, steps, t) && a in t.requests && CanGiveUp(t.requests[a])
    ensures Leads(s, steps', t') && GaveUp(t, t', a)
  {
    hide Leads;
    var r := t.requests[a];
    match r.phase
    case Releasing =>
      assert t.requests[a := r.(phase := Releasing)] == t.requests;
      steps', t' := steps, t;
    case RollingBack(_, _) => steps', t' := DeletesAndReleases(s, steps, t, a);
    case Unregistered(_) =>
      steps', t' := RollsBack(s, steps, t, a);
      var u := t';
      steps', t' := DeletesAndReleases(s, steps', u, a);
      assert u.requests[a := u.requests[a].(phase := Releasing)] == t.requests[a := r.(phase := Releasing)];
    case HasVm(_) =>
      steps', t' := ChecksVmid(s, steps, t, a);
      var u := t';
      steps', t' := DeletesAndReleases(s, steps', u, a);
      assert u.requests[a := u.requests[a].(phase := Releasing)] == t.requests[a := r.(phase := Releasing)];
    case Funded =>
      if r.job.Create? {
        steps', t' := Extend(s, steps, t, Provision(a, None));
      } else {
        steps', t' := Extend(s, steps, t, Assign(a, false));
      }
    case _ => steps', t' := Extend(s, steps, t, Reject(a));
  }

  // ---------------------------------------------------------------- two charges

  /** A reseller with room for services, money for two and an address, and two machines that the provider can give. */
  predicate CanAffordTwo(s: State, reseller: ResellerId, price: nat, v: VmId, w: VmId) {
    && !OverQuota(s.db, reseller) && Afford(s.db, reseller, 2 * price).Funds?
    && v != w && v !in s.live && w !in s.live && !Registered(s.db, v) && !Registered(s.db, w)
  }

  /** A new request with the key goes all the way, when nothing holds the key. */
  lemma FreshIsCharged(s: State, steps: seq<Step>, t: State, b: RequestId, reseller: ResellerId, key: Key, hash: Hash, price: nat,
                       v: VmId) returns (steps': seq<Step>, t': State)
    requires Leads(s, steps, t)
    requires b !in t.requests && !Held(t.records, key, t.now) && !OverQuota(t.db, reseller)
    requires KeyFits(Some(key), reseller, ResellerSaga.Job.Create(price))
    requires Afford(t.db, reseller, price).Funds? && v !in t.live && !Registered(t.db, v)
    ensures Leads(s, steps', t') && Paid(t', b, key)
    ensures forall a :: a in t.requests ==> a in t'.requests && t'.requests[a] == t.requests[a]
  {
    var u: State;
    steps', u := CreateGetsReady(s, steps, t, b, reseller, Some(key), hash, price, v);
    hide Leads, Registered, Afford, OverQuota, CreateTx;
    steps', t' := CreateCommits(s, steps', u, b);
  }

  /** What one creation leaves for the next. */
  lemma AffordsAnother(db: Db, reseller: ResellerId, price: nat, v: VmId, w: VmId, expireAt: nat, request: RequestId)
    requires Afford(db, reseller, 2 * price).Funds? && !Registered(db, v) && !Registered(db, w) && v != w
    ensures CreateTx(db, reseller, price, v, expireAt, request).Saved?
    ensures var after := CreateTx(db, reseller, price, v, expireAt, request).db;
            Afford(after, reseller, price).Funds? && !Registered(after, w)
  {
    var after := CreateTx(db, reseller, price, v, expireAt, request).db;
    assert after.rows == db.rows[db.nextId := after.rows[db.nextId]] && after.rows[db.nextId].vmid == v;
  }

  /**
   * A request that is about to give its key back gives back a claim that is not its own: the one of the request that took over
   * with the same body. A third request is let in, and both newcomers are charged.
   */
  lemma ReleaseFreesAnother(s: State, steps: seq<Step>, t: State, a: RequestId, b: RequestId, c: RequestId, key: Key, price: nat,
                            v: VmId, w: VmId) returns (steps': seq<Step>, t': State)
    requires Leads(s, steps, t)
    requires a in t.requests && t.requests[a].phase.Releasing? && t.requests[a].key == Some(key)
    requires KeyFits(Some(key), t.requests[a].reseller, ResellerSaga.Job.Create(price))
    requires b != c && b !in t.requests && c !in t.requests && !Held(t.records, key, t.now)
    requires CanAffordTwo(t, t.requests[a].reseller, price, v, w)
    ensures Leads(s, steps', t') && Paid(t', b, key) && Paid(t', c, key)
  {
    var r := t.requests[a];
    var u: State;
    steps', u := CreateGetsReady(s, steps, t, b, r.reseller, Some(key), r.hash, price, v);
    hide Leads, Afford, OverQuota, Registered;
    assert u.requests[a] == r;
    var u1: State;
    steps', u1 := Extend(s, steps', u, Release(a));
    assert u1 == Move(u, a, Finished(Refused)).(records := u.records - {key});
    var u2: State;
    steps', u2 := CreateGetsReady(s, steps', u1, c, r.reseller, Some(key), r.hash, price, w);
    assert u2.requests[b] == u.requests[b] && u2.db == t.db;
    steps', t' := CommitBoth(s, steps', u2, b, c, key, price, v, w);
  }

  /** The request is ready to insert its machine. */
  predicate IsReady(t: State, b: RequestId, reseller: ResellerId, key: Key, price: nat, v: VmId) {
    && b in t.requests && t.requests[b].reseller == reseller && t.requests[b].key == Some(key)
    && t.requests[b].job == ResellerSaga.Job.Create(price) && t.requests[b].phase == Unregistered(v)
  }

  lemma CommitBoth(s: State, steps: seq<Step>, t: State, b: RequestId, c: RequestId, key: Key, price: nat, v: VmId, w: VmId)
    returns (steps': seq<Step>, t': State)
    requires Leads(s, steps, t) && b != c && b in t.requests
    requires IsReady(t, b, t.requests[b].reseller, key, price, v) && IsReady(t, c, t.requests[b].reseller, key, price, w)
    requires Afford(t.db, t.requests[b].reseller, 2 * price).Funds?
    requires v != w && !Registered(t.db, v) && !Registered(t.db, w)
    ensures Leads(s, steps', t') && Paid(t', b, key) && Paid(t', c, key)
  {
    hide Leads, CreateTx, Registered;
    var reseller := t.requests[b].reseller;
    AffordsAnother(t.db, reseller, price, v, w, t.now + MONTH_MS, b);
    assert Afford(t.db, reseller, price).Funds?;
    hide Afford;
    var u: State;
    steps', u := CreateCommits(s, steps, t, b);
    assert u.requests[c] == t.requests[c];
    steps', t' := CreateCommits(s, steps', u, c);
    assert t'.requests[b] == u.requests[b];
  }

  // ---------------------------------------------------------------- every takeover of a creation

  /**
   * From every state in which the record of a creation's key has run out while a request with the key was charged or is still at
   * work, in whatever phase: a run leads to two charged requests with that key, whenever quota, wallet and provider allow.
   */
  lemma LapsedRecordChargesTwice(s: State, a: RequestId, b: RequestId, c: RequestId, key: Key, price: nat, v: VmId, w: VmId)
    returns (steps: seq<Step>, x: RequestId, y: RequestId)
    requires key.route.CreateRoute? && Lapsed(s.records, key, s.now) && (Holds(s, a, key) || Paid(s, a, key))
    requires KeyFits(Some(key), s.requests[a].reseller, s.requests[a].job)
    requires PhaseFitsJob(s.requests[a]) && ChargeFitsPhase(s.requests[a])
    requires b != c && b !in s.requests && c !in s.requests && CanAffordTwo(s, key.reseller, price, v, w)
    ensures CanRun(s, steps) && x != y && Paid(Run(s, steps), x, key) && Paid(Run(s, steps), y, key)
  {
    var r := s.requests[a];
    var t: State;
    assert Leads(s, [], s);
    assert Afford(s.db, r.reseller, price).Funds?;
    hide Leads, Registered, Afford, OverQuota;
    y := b;
    if r.charge.Some? {
      steps, t := FreshIsCharged(s, [], s, b, r.reseller, key, r.hash, price, v);
      x := a;
    } else {
      var u: State;
      steps, u := GivesUp(s, [], s, a);
      steps, t := ReleaseFreesAnother(s, steps, u, a, b, c, key, price, v, w);
      x := c;
    }
    LeadsIs(s, steps, t);
  }
}
