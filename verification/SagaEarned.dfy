// What every charge of a run stands on: the checks its request passed, the provider's answer, and the row it leaves
// (src/api/reseller-api.ts:541-544,1156-1313,2030-2077, src/api/reseller-api-vm-ops.ts:104-197).
module SagaEarned {
  import opened Common
  import opened IdempotencyStore
  import opened ResellerDb
  import opened ResellerSaga
  import opened SagaServices

  /** A step of a run, with the states in front of it and behind it. */
  datatype Event = Event(before: State, step: Step, after: State)

  function Events(s: State, steps: seq<Step>): (events: seq<Event>)
    requires CanRun(s, steps)
    ensures |events| == |steps| && forall i :: 0 <= i < |steps| ==> events[i].step == steps[i]
    decreases |steps|
  {
    if steps == [] then [] else [Event(s, steps[0], Next(s, steps[0]))] + Events(Next(s, steps[0]), steps[1..])
  }

  // ---------------------------------------------------------------- what a request passes

  /** The reseller has a user, and the user's balance covers the amount. */
  predicate Covers(db: Db, reseller: ResellerId, amount: nat) {
    && reseller in db.resellers && db.resellers[reseller].wallet.Some?
    && db.resellers[reseller].wallet.value in db.balances
    && db.balances[db.resellers[reseller].wallet.value] >= amount
  }

  /** A creation finds fewer services than the quota, a purchase finds the reseller's own service without an extra address. */
  predicate Admits(ev: Event, id: RequestId, r: Request) {
    && ev.step == Check(id)
    && var db := ev.before.db;
    match r.job
    case Create(_) =>
      r.reseller in db.resellers && db.resellers[r.reseller].maxVps > 0 ==>
        |Owned(db, r.reseller)| < db.resellers[r.reseller].maxVps
    case BuyIpv4(service) =>
      service in db.rows && db.rows[service].reseller == r.reseller && db.rows[service].extraIpv4 == 0
    case Renew(_, _) => false
  }

  /** The wallet covers the price of the creation, or of an address. */
  predicate HadFunds(ev: Event, id: RequestId, r: Request) {
    && ev.step == CheckFunds(id)
    && match r.job
       case Create(price) => Covers(ev.before.db, r.reseller, price)
       case BuyIpv4(_) => Covers(ev.before.db, r.reseller, ev.before.monthly)
       case Renew(_, _) => false
  }

  /** A renewal reads the row of the reseller's own service. */
  predicate ReadRow(ev: Event, id: RequestId, r: Request, row: Row) {
    && ev.step == Check(id) && r.job.Renew?
    && r.job.target in ev.before.db.rows && ev.before.db.rows[r.job.target] == row && row.reseller == r.reseller
  }

  /** The time that a number of months lasts. */
  function PaidTime(months: nat): nat {
    if months in {1, 3, 6, 12} then months * 2_592_000_000 else 2_592_000_000
  }

  /** A renewal works out the price of its months and the new end of the service. */
  predicate PricedRow(ev: Event, id: RequestId, r: Request, row: Row, amount: nat, expire: nat) {
    && ev.step == CheckFunds(id) && r.job.Renew?
    && amount == row.renewalPrice * r.job.months && Covers(ev.before.db, r.reseller, amount)
    && expire == (if ev.before.now > row.expireAt then ev.before.now else row.expireAt) + PaidTime(r.job.months)
  }

  // ---------------------------------------------------------------- in which order

  predicate PassedBoth(past: seq<Event>, id: RequestId, r: Request, i: nat, j: nat) {
    i < j < |past| && Admits(past[i], id, r) && HadFunds(past[j], id, r)
  }

  predicate Provided(past: seq<Event>, id: RequestId, r: Request, i: nat, j: nat, k: nat, answer: Step) {
    k < |past| && j < k && PassedBoth(past, id, r, i, j) && past[k].step == answer
  }

  predicate ReadAndPriced(past: seq<Event>, id: RequestId, r: Request, i: nat, j: nat, row: Row, amount: nat, expire: nat) {
    i < j < |past| && ReadRow(past[i], id, r, row) && PricedRow(past[j], id, r, row, amount, expire)
  }

  /** What the past says about a request in this phase. */
  ghost predicate Earned(past: seq<Event>, id: RequestId, r: Request) {
    match r.phase
    case Checked => exists i: nat :: i < |past| && Admits(past[i], id, r)
    case Funded => exists i: nat, j: nat :: PassedBoth(past, id, r, i, j)
    case HasVm(v) => exists i: nat, j: nat, k: nat :: Provided(past, id, r, i, j, k, Provision(id, Some(v)))
    case Unregistered(v) => exists i: nat, j: nat, k: nat :: Provided(past, id, r, i, j, k, Provision(id, Some(v)))
    case HasIpv4 => exists i: nat, j: nat, k: nat :: Provided(past, id, r, i, j, k, Assign(id, true))
    case Loaded(row) => exists i: nat :: i < |past| && ReadRow(past[i], id, r, row)
    case Priced(row, amount, expire) => exists i: nat, j: nat :: ReadAndPriced(past, id, r, i, j, row, amount, expire)
    case _ => true
  }

  // ---------------------------------------------------------------- what a charge stands on

  /** The commit of the entry's request makes exactly this entry, and writes this row and no other. */
  predicate Commits(ev: Event, m: Movement, row: Row)
    requires m.Debit?
  {
    && ev.step == Commit(m.request, false) && m.request in ev.before.requests
    && ev.after.db.history == ev.before.db.history + [m]
    && ev.after.db.rows == ev.before.db.rows[m.service := row]
  }

  ghost predicate CreationEarned(past: seq<Event>, m: Movement, n: nat)
    requires m.Debit? && n < |past| && m.request in past[n].before.requests
  {
    var r, before := past[n].before.requests[m.request], past[n].before;
    exists i: nat, j: nat, k: nat, v: VmId ::
      && k < n && Provided(past, m.request, r, i, j, k, Provision(m.request, Some(v)))
      && r.job.Create? && m.amount == r.job.price && m.service !in before.db.rows
      && Commits(past[n], m, Row(v, r.reseller, r.job.price, 0, before.now + 2_592_000_000))
  }

  ghost predicate AddressEarned(past: seq<Event>, m: Movement, n: nat)
    requires m.Debit? && n < |past| && m.request in past[n].before.requests
  {
    var r, before := past[n].before.requests[m.request], past[n].before;
    exists i: nat, j: nat, k: nat ::
      && k < n && Provided(past, m.request, r, i, j, k, Assign(m.request, true))
      && r.job == BuyIpv4(m.service) && m.amount == before.monthly
      && m.service in before.db.rows && before.db.rows[m.service].reseller == r.reseller
      && var row := before.db.rows[m.service];
      && row.extraIpv4 == 0
      && Commits(past[n], m, row.(extraIpv4 := 1, renewalPrice := row.renewalPrice + before.monthly))
  }

  ghost predicate RenewalEarned(past: seq<Event>, m: Movement, n: nat)
    requires m.Debit? && n < |past| && m.request in past[n].before.requests
  {
    var r := past[n].before.requests[m.request];
    exists i: nat, j: nat, row: Row, amount: nat, expire: nat ::
      && j < n && ReadAndPriced(past, m.request, r, i, j, row, amount, expire)
      && r.job.Renew? && r.job.target == m.service && m.amount == amount
      && Commits(past[n], m, row.(expireAt := expire))
  }

  ghost predicate ChargeEarned(past: seq<Event>, m: Movement, n: nat)
    requires m.Debit?
  {
    && n < |past| && m.request in past[n].before.requests
    && match m.purpose
       case ServiceCreate => CreationEarned(past, m, n)
       case ExtraIpv4 => AddressEarned(past, m, n)
       case ServiceRenew => RenewalEarned(past, m, n)
  }

  /** The provider is asked for a machine or an address only behind both checks. */
  ghost predicate AskedLate(past: seq<Event>, n: nat)
    requires n < |past|
  {
    past[n].step.Provision? || past[n].step.Assign? ==>
      && past[n].step.id in past[n].before.requests
      && exists i: nat, j: nat :: j < n && PassedBoth(past, past[n].step.id, past[n].before.requests[past[n].step.id], i, j)
  }

  ghost predicate Inv(past: seq<Event>, s: State) {
    && (forall id :: id in s.requests ==> Earned(past, id, s.requests[id]))
    && (forall m :: m in s.db.history && m.Debit? ==> exists n: nat :: ChargeEarned(past, m, n))
    && (forall n: nat :: n < |past| ==> AskedLate(past, n))
  }

  // ---------------------------------------------------------------- the past stays

  lemma StillPassed(past: seq<Event>, ev: Event, id: RequestId, r: Request, i: nat, j: nat)
    requires PassedBoth(past, id, r, i, j)
    ensures PassedBoth(past + [ev], id, r, i, j)
  {
    assert (past + [ev])[i] == past[i] && (past + [ev])[j] == past[j];
  }

  lemma StillProvided(past: seq<Event>, ev: Event, id: RequestId, r: Request, i: nat, j: nat, k: nat, answer: Step)
    requires Provided(past, id, r, i, j, k, answer)
    ensures Provided(past + [ev], id, r, i, j, k, answer)
  {
    StillPassed(past, ev, id, r, i, j);
    assert (past + [ev])[k] == past[k];
  }

  lemma StillPriced(past: seq<Event>, ev: Event, id: RequestId, r: Request, i: nat, j: nat, row: Row, amount: nat, expire: nat)
    requires ReadAndPriced(past, id, r, i, j, row, amount, expire)
    ensures ReadAndPriced(past + [ev], id, r, i, j, row, amount, expire)
  {
    assert (past + [ev])[i] == past[i] && (past + [ev])[j] == past[j];
  }

  lemma EarnedStays(past: seq<Event>, ev: Event, id: RequestId, r: Request)
    requires Earned(past, id, r)
    ensures Earned(past + [ev], id, r)
  {
    hide Admits, HadFunds, ReadRow, PricedRow, PassedBoth, Provided, ReadAndPriced;
    match r.phase
    case Checked =>
      var i: nat :| i < |past| && Admits(past[i], id, r);
      assert (past + [ev])[i] == past[i];
    case Funded =>
      var i: nat, j: nat :| PassedBoth(past, id, r, i, j);
      StillPassed(past, ev, id, r, i, j);
    case HasVm(v) =>
      var i: nat, j: nat, k: nat :| Provided(past, id, r, i, j, k, Provision(id, Some(v)));
      StillProvided(past, ev, id, r, i, j, k, Provision(id, Some(v)));
    case Unregistered(v) =>
      var i: nat, j: nat, k: nat :| Provided(past, id, r, i, j, k, Provision(id, Some(v)));
      StillProvided(past, ev, id, r, i, j, k, Provision(id, Some(v)));
    case HasIpv4 =>
      var i: nat, j: nat, k: nat :| Provided(past, id, r, i, j, k, Assign(id, true));
      StillProvided(past, ev, id, r, i, j, k, Assign(id, true));
    case Loaded(row) =>
      var i: nat :| i < |past| && ReadRow(past[i], id, r, row);
      assert (past + [ev])[i] == past[i];
    case Priced(row, amount, expire) =>
      var i: nat, j: nat :| ReadAndPriced(past, id, r, i, j, row, amount, expire);
      StillPriced(past, ev, id, r, i, j, row, amount, expire);
    case _ =>
  }

  lemma CreationStays(past: seq<Event>, ev: Event, m: Movement, n: nat)
    requires m.Debit? && n < |past| && m.request in past[n].before.requests && CreationEarned(past, m, n)
    ensures m.request in (past + [ev])[n].before.requests && CreationEarned(past + [ev], m, n)
  {
    hide Provided, Commits;
    assert (past + [ev])[n] == past[n];
    var r, before := past[n].before.requests[m.request], past[n].before;
    var i: nat, j: nat, k: nat, v: VmId :|
      && k < n && Provided(past, m.request, r, i, j, k, Provision(m.request, Some(v)))
      && r.job.Create? && m.amount == r.job.price && m.service !in before.db.rows
      && Commits(past[n], m, Row(v, r.reseller, r.job.price, 0, before.now + 2_592_000_000));
    StillProvided(past, ev, m.request, r, i, j, k, Provision(m.request, Some(v)));
  }

  lemma AddressStays(past: seq<Event>, ev: Event, m: Movement, n: nat)
    requires m.Debit? && n < |past| && m.request in past[n].before.requests && AddressEarned(past, m, n)
    ensures m.request in (past + [ev])[n].before.requests && AddressEarned(past + [ev], m, n)
  {
    hide Provided, Commits;
    assert (past + [ev])[n] == past[n];
    var r := past[n].before.requests[m.request];
    var i: nat, j: nat, k: nat :| k < n && Provided(past, m.request, r, i, j, k, Assign(m.request, true));
    StillProvided(past, ev, m.request, r, i, j, k, Assign(m.request, true));
  }

  lemma RenewalStays(past: seq<Event>, ev: Event, m: Movement, n: nat)
    requires m.Debit? && n < |past| && m.request in past[n].before.requests && RenewalEarned(past, m, n)
    ensures m.request in (past + [ev])[n].before.requests && RenewalEarned(past + [ev], m, n)
  {
    hide ReadAndPriced, Commits;
    assert (past + [ev])[n] == past[n];
    var r := past[n].before.requests[m.request];
    var i: nat, j: nat, row: Row, amount: nat, expire: nat :|
      && j < n && ReadAndPriced(past, m.request, r, i, j, row, amount, expire)
      && r.job.Renew? && r.job.target == m.service && m.amount == amount
      && Commits(past[n], m, row.(expireAt := expire));
    StillPriced(past, ev, m.request, r, i, j, row, amount, expire);
  }

  lemma ChargeStays(past: seq<Event>, ev: Event, m: Movement, n: nat)
    requires m.Debit? && ChargeEarned(past, m, n)
    ensures ChargeEarned(past + [ev], m, n)
  {
    hide CreationEarned, AddressEarned, RenewalEarned;
    match m.purpose
    case ServiceCreate => CreationStays(past, ev, m, n);
    case ExtraIpv4 => AddressStays(past, ev, m, n);
    case ServiceRenew => RenewalStays(past, ev, m, n);
  }

  lemma AskedStays(past: seq<Event>, ev: Event, n: nat)
    requires n < |past| && AskedLate(past, n)
    ensures AskedLate(past + [ev], n)
  {
    var now := past + [ev];
    assert now[n] == past[n];
    hide PassedBoth;
    if past[n].step.Provision? || past[n].step.Assign? {
      var id := past[n].step.id;
      var r := past[n].before.requests[id];
      var i: nat, j: nat :| j < n && PassedBoth(past, id, r, i, j);
      StillPassed(past, ev, id, r, i, j);
    }
  }

  // ---------------------------------------------------------------- the request that moves

  /** The checks look at a request's reseller and job only. */
  lemma SameChecks(past: seq<Event>, id: RequestId, r: Request, r': Request)
    requires r'.reseller == r.reseller && r'.job == r.job
    ensures forall ev :: Admits(ev, id, r') == Admits(ev, id, r) && HadFunds(ev, id, r') == HadFunds(ev, id, r)
    ensures forall i, j :: PassedBoth(past, id, r', i, j) == PassedBoth(past, id, r, i, j)
    ensures forall i, j, k, e :: Provided(past, id, r', i, j, k, e) == Provided(past, id, r, i, j, k, e)
    ensures forall ev, row :: ReadRow(ev, id, r', row) == ReadRow(ev, id, r, row)
  {
  }

  lemma AffordIsCovers(db: Db, reseller: ResellerId, amount: nat)
    ensures Afford(db, reseller, amount).Funds? <==> Covers(db, reseller, amount)
  {
  }

  lemma RenewedIsPaidTime(months: nat)
    ensures RenewedMs(months) == PaidTime(months)
  {
  }

  lemma CheckEarned(past: seq<Event>, s: State, e: Step)
    requires Enabled(s, e) && e.Check?
    ensures e.id in Next(s, e).requests && Earned(past + [Event(s, e, Next(s, e))], e.id, Next(s, e).requests[e.id])
  {
    var s' := Next(s, e);
    var ev := Event(s, e, s');
    var now := past + [ev];
    var r, r' := s.requests[e.id], s'.requests[e.id];
    assert now[|past|] == ev;
    assert r'.phase.Checked? ==> Admits(ev, e.id, r');
    assert r'.phase.Loaded? ==> ReadRow(ev, e.id, r', r'.phase.snapshot);
    hide Admits, ReadRow, OverQuota, Owned;
  }

  lemma FundsEarned(past: seq<Event>, s: State, e: Step)
    requires Enabled(s, e) && e.CheckFunds? && Earned(past, e.id, s.requests[e.id])
    ensures e.id in Next(s, e).requests && Earned(past + [Event(s, e, Next(s, e))], e.id, Next(s, e).requests[e.id])
  {
    var s' := Next(s, e);
    var ev := Event(s, e, s');
    var now := past + [ev];
    var id := e.id;
    var r, r' := s.requests[id], s'.requests[id];
    SameChecks(past, id, r, r');
    assert now[|past|] == ev;
    if r.phase.Checked? {
      var i: nat :| i < |past| && Admits(past[i], id, r);
      assert now[i] == past[i];
      if r'.phase.Funded? {
        AffordIsCovers(s.db, r.reseller, if r.job.Create? then r.job.price else s.monthly);
        assert HadFunds(ev, id, r');
        assert PassedBoth(now, id, r', i, |past|);
      }
    } else {
      var i: nat :| i < |past| && ReadRow(past[i], id, r, r.phase.snapshot);
      assert now[i] == past[i];
      if r'.phase.Priced? {
        AffordIsCovers(s.db, r.reseller, r.phase.snapshot.renewalPrice * r.job.months);
        RenewedIsPaidTime(r.job.months);
        assert PricedRow(ev, id, r', r.phase.snapshot, r'.phase.amount, r'.phase.expire);
        assert ReadAndPriced(now, id, r', i, |past|, r.phase.snapshot, r'.phase.amount, r'.phase.expire);
      }
    }
  }

  lemma ProvidedNow(past: seq<Event>, ev: Event, id: RequestId, r: Request, i: nat, j: nat)
    requires PassedBoth(past, id, r, i, j)
    ensures Provided(past + [ev], id, r, i, j, |past|, ev.step)
  {
    StillPassed(past, ev, id, r, i, j);
    assert (past + [ev])[|past|] == ev;
    hide Admits, HadFunds;
  }

  /** What an answer of the provider does to the phase. */
  lemma AnswerPhase(s: State, e: Step)
    requires Enabled(s, e) && (e.Provision? || e.Assign?)
    ensures e.id in Next(s, e).requests && s.requests[e.id].phase.Funded?
    ensures var r, r' := s.requests[e.id], Next(s, e).requests[e.id];
            && r'.reseller == r.reseller && r'.job == r.job
            && (r'.phase.Releasing? || (r'.phase.HasVm? && e == Provision(e.id, Some(r'.phase.vmid)))
                || (r'.phase.HasIpv4? && e == Assign(e.id, true)))
  {
  }

  lemma AnswerEarned(past: seq<Event>, s: State, e: Step)
    requires Enabled(s, e) && (e.Provision? || e.Assign?) && Earned(past, e.id, s.requests[e.id])
    ensures e.id in Next(s, e).requests && Earned(past + [Event(s, e, Next(s, e))], e.id, Next(s, e).requests[e.id])
  {
    var s' := Next(s, e);
    var r, r' := s.requests[e.id], s'.requests[e.id];
    AnswerPhase(s, e);
    var i: nat, j: nat :| PassedBoth(past, e.id, r, i, j);
    SameChecks(past, e.id, r, r');
    ProvidedNow(past, Event(s, e, s'), e.id, r', i, j);
    hide Next, Enabled, PassedBoth, Provided, Admits, HadFunds;
  }

  lemma VmidEarned(past: seq<Event>, s: State, e: Step)
    requires Enabled(s, e) && e.CheckVmid? && Earned(past, e.id, s.requests[e.id])
    ensures e.id in Next(s, e).requests && Earned(past + [Event(s, e, Next(s, e))], e.id, Next(s, e).requests[e.id])
  {
    var s' := Next(s, e);
    var r, r' := s.requests[e.id], s'.requests[e.id];
    var v := r.phase.vmid;
    var i: nat, j: nat, k: nat :| Provided(past, e.id, r, i, j, k, Provision(e.id, Some(v)));
    SameChecks(past, e.id, r, r');
    hide Provided, Registered, Admits, HadFunds;
    StillProvided(past, Event(s, e, s'), e.id, r', i, j, k, Provision(e.id, Some(v)));
  }

  /** The phases that other steps lead to need no past. */
  lemma OtherEarned(past: seq<Event>, s: State, e: Step)
    requires Enabled(s, e) && !e.Tick? && !e.Pay?
    requires !e.Check? && !e.CheckFunds? && !e.Provision? && !e.Assign? && !e.CheckVmid?
    ensures e.id in Next(s, e).requests && Earned(past, e.id, Next(s, e).requests[e.id])
  {
    OtherPhases(s, e);
    hide Next, Enabled, Admits, HadFunds, PassedBoth, Provided, ReadRow, ReadAndPriced;
  }

  lemma OtherPhases(s: State, e: Step)
    requires Enabled(s, e) && !e.Tick? && !e.Pay?
    requires !e.Check? && !e.CheckFunds? && !e.Provision? && !e.Assign? && !e.CheckVmid?
    ensures e.id in Next(s, e).requests && NeedsNoPast(Next(s, e).requests[e.id].phase)
  {
    if e.Commit? {
      hide CreateTx, ExtraIpv4Tx, RenewTx;
    } else {
      QuietPhases(s, e);
      hide Next, Enabled;
    }
  }

  predicate NeedsNoPast(p: Phase) {
    !p.Checked? && !p.Funded? && !p.HasVm? && !p.Unregistered? && !p.HasIpv4? && !p.Loaded? && !p.Priced?
  }

  lemma QuietPhases(s: State, e: Step)
    requires Enabled(s, e) && !e.Tick? && !e.Pay? && !e.Commit?
    requires !e.Check? && !e.CheckFunds? && !e.Provision? && !e.Assign? && !e.CheckVmid?
    ensures e.id in Next(s, e).requests && NeedsNoPast(Next(s, e).requests[e.id].phase)
  {
    hide Begun, Released, CompletedRecords, Committed;
  }

  lemma OwnEarned(past: seq<Event>, s: State, e: Step)
    requires Enabled(s, e) && !e.Tick? && !e.Pay? && (e.id in s.requests ==> Earned(past, e.id, s.requests[e.id]))
    ensures e.id in Next(s, e).requests && Earned(past + [Event(s, e, Next(s, e))], e.id, Next(s, e).requests[e.id])
  {
    if e.Check? {
      CheckEarned(past, s, e);
    } else if e.CheckFunds? {
      FundsEarned(past, s, e);
    } else if e.Provision? || e.Assign? {
      AnswerEarned(past, s, e);
    } else if e.CheckVmid? {
      VmidEarned(past, s, e);
    } else {
      OtherEarned(past, s, e);
      EarnedStays(past, Event(s, e, Next(s, e)), e.id, Next(s, e).requests[e.id]);
    }
    hide Next, Earned;
  }

  // ---------------------------------------------------------------- the commit

  lemma CreationIsEarned(past: seq<Event>, s: State, e: Step)
    requires Enabled(s, e) && e.Commit? && s.requests[e.id].phase.Unregistered? && Earned(past, e.id, s.requests[e.id])
    requires s.db.nextId !in s.db.rows && Next(s, e).requests[e.id].phase.Booked?
    ensures var s' := Next(s, e);
            && |s'.db.history| == |s.db.history| + 1
            && var m := s'.db.history[|s.db.history|];
            && s'.db.history == s.db.history + [m] && m.Debit? && ChargeEarned(past + [Event(s, e, s')], m, |past|)
  {
    var s' := Next(s, e);
    var ev := Event(s, e, s');
    var now, r, id := past + [ev], s.requests[e.id], e.id;
    var v := r.phase.vmid;
    var m := s'.db.history[|s.db.history|];
    assert now[|past|] == ev;
    var i: nat, j: nat, k: nat :| Provided(past, id, r, i, j, k, Provision(id, Some(v)));
    StillProvided(past, ev, id, r, i, j, k, Provision(id, Some(v)));
    assert Admits(past[i], id, r);
    hide Registered, Provided;
    assert Commits(ev, m, Row(v, r.reseller, r.job.price, 0, s.now + 2_592_000_000));
    assert m.purpose == ServiceCreate && m.amount == r.job.price && m.request == id;
  }

  /** What a purchase that commits finds and writes. */
  lemma AddressCommits(s: State, e: Step)
    requires Enabled(s, e) && e.Commit? && s.requests[e.id].phase.HasIpv4? && Next(s, e).requests[e.id].phase.Booked?
    ensures var s', r := Next(s, e), s.requests[e.id];
            && |s'.db.history| == |s.db.history| + 1
            && var m := s'.db.history[|s.db.history|];
            && m.Debit? && m.purpose == ExtraIpv4 && m.amount == s.monthly && m.request == e.id && r.job == BuyIpv4(m.service)
            && m.service in s.db.rows && s.db.rows[m.service].reseller == r.reseller
            && var row := s.db.rows[m.service];
            && row.extraIpv4 == 0
            && Commits(Event(s, e, s'), m, row.(extraIpv4 := 1, renewalPrice := row.renewalPrice + s.monthly))
  {
  }

  lemma AddressIsEarned(past: seq<Event>, s: State, e: Step)
    requires Enabled(s, e) && e.Commit? && s.requests[e.id].phase.HasIpv4? && Earned(past, e.id, s.requests[e.id])
    requires Next(s, e).requests[e.id].phase.Booked?
    ensures var s' := Next(s, e);
            && |s'.db.history| == |s.db.history| + 1
            && var m := s'.db.history[|s.db.history|];
            && s'.db.history == s.db.history + [m] && m.Debit? && ChargeEarned(past + [Event(s, e, s')], m, |past|)
  {
    AddressCommits(s, e);
    var s' := Next(s, e);
    var ev := Event(s, e, s');
    var r := s.requests[e.id];
    assert (past + [ev])[|past|] == ev;
    var i: nat, j: nat, k: nat :| Provided(past, e.id, r, i, j, k, Assign(e.id, true));
    StillProvided(past, ev, e.id, r, i, j, k, Assign(e.id, true));
    assert k < |past|;
    hide Provided, Next, Enabled;
  }

  lemma RenewalIsEarned(past: seq<Event>, s: State, e: Step)
    requires Enabled(s, e) && e.Commit? && s.requests[e.id].phase.Priced? && Earned(past, e.id, s.requests[e.id])
    requires Next(s, e).requests[e.id].phase.Booked?
    ensures var s' := Next(s, e);
            && |s'.db.history| == |s.db.history| + 1
            && var m := s'.db.history[|s.db.history|];
            && s'.db.history == s.db.history + [m] && m.Debit? && ChargeEarned(past + [Event(s, e, s')], m, |past|)
  {
    var s' := Next(s, e);
    var ev := Event(s, e, s');
    var now, r, id := past + [ev], s.requests[e.id], e.id;
    var m := s'.db.history[|s.db.history|];
    assert now[|past|] == ev;
    var row, amount, expire := r.phase.snapshot, r.phase.amount, r.phase.expire;
    var i: nat, j: nat :| ReadAndPriced(past, id, r, i, j, row, amount, expire);
    StillPriced(past, ev, id, r, i, j, row, amount, expire);
    assert j < |past|;
    hide ReadAndPriced;
    assert Commits(ev, m, row.(expireAt := expire));
    assert m.purpose == ServiceRenew && m.amount == amount && m.request == id && r.job.target == m.service;
  }

  lemma CommitEarned(past: seq<Event>, s: State, e: Step, m: Movement)
    requires ServicesInv(s) && Enabled(s, e) && e.Commit? && Earned(past, e.id, s.requests[e.id])
    requires m in Next(s, e).db.history && m.Debit? && m !in s.db.history
    ensures ChargeEarned(past + [Event(s, e, Next(s, e))], m, |past|)
  {
    CommitChangesIfBooked(s, e);
    var p := s.requests[e.id].phase;
    if p.Unregistered? {
      CreationIsEarned(past, s, e);
    } else if p.HasIpv4? {
      AddressIsEarned(past, s, e);
    } else {
      RenewalIsEarned(past, s, e);
    }
    hide Next, Earned, ChargeEarned, ServicesFit;
  }

  lemma CommitChangesIfBooked(s: State, e: Step)
    requires Enabled(s, e) && e.Commit?
    ensures e.id in Next(s, e).requests && (Next(s, e).requests[e.id].phase.Booked? || Next(s, e).db == s.db)
  {
    hide CreateTx, ExtraIpv4Tx, RenewTx;
  }

  // ---------------------------------------------------------------- every step

  lemma StepKeepsInv(past: seq<Event>, s: State, e: Step)
    requires ServicesInv(s) && Inv(past, s) && Enabled(s, e)
    ensures Inv(past + [Event(s, e, Next(s, e))], Next(s, e))
  {
    var s' := Next(s, e);
    var ev := Event(s, e, s');
    var now := past + [ev];
    RequestsEarned(past, s, e);
    ChargesEarned(past, s, e);
    hide Earned, ChargeEarned, Next, Enabled, ServicesInv;
    forall n: nat | n < |now| ensures AskedLate(now, n) {
      if n < |past| {
        AskedStays(past, ev, n);
      } else {
        AskedNow(past, s, e);
      }
    }
  }

  lemma RequestsEarned(past: seq<Event>, s: State, e: Step)
    requires Inv(past, s) && Enabled(s, e)
    ensures forall id :: id in Next(s, e).requests ==> Earned(past + [Event(s, e, Next(s, e))], id, Next(s, e).requests[id])
  {
    var s' := Next(s, e);
    OnlyItsRequest(s, e);
    if !e.Tick? && !e.Pay? {
      OwnEarned(past, s, e);
    }
    hide Next, Enabled, Earned, ChargeEarned, AskedLate;
    forall id | id in s'.requests ensures Earned(past + [Event(s, e, s')], id, s'.requests[id]) {
      if id in s.requests && s'.requests[id] == s.requests[id] {
        EarnedStays(past, Event(s, e, s'), id, s.requests[id]);
      }
    }
  }

  lemma ChargesEarned(past: seq<Event>, s: State, e: Step)
    requires ServicesInv(s) && Inv(past, s) && Enabled(s, e)
    ensures forall m :: m in Next(s, e).db.history && m.Debit? ==>
              exists n: nat :: ChargeEarned(past + [Event(s, e, Next(s, e))], m, n)
  {
    var s' := Next(s, e);
    SharedFrame(s, e);
    assert e.Pay? ==> s'.db.history == s.db.history + [TopUp(e.wallet, e.amount)];
    hide Next, Enabled, Earned, ChargeEarned, AskedLate, ServicesInv;
    forall m | m in s'.db.history && m.Debit? ensures exists n: nat :: ChargeEarned(past + [Event(s, e, s')], m, n) {
      if m in s.db.history {
        var n: nat :| ChargeEarned(past, m, n);
        ChargeStays(past, Event(s, e, s'), m, n);
      } else {
        CommitOf(s, e);
        CommitEarned(past, s, e, m);
      }
    }
  }

  lemma CommitOf(s: State, e: Step)
    requires Enabled(s, e) && e.Commit?
    ensures e.id in s.requests
  {
  }

  lemma AskedNow(past: seq<Event>, s: State, e: Step)
    requires Enabled(s, e) && forall id :: id in s.requests ==> Earned(past, id, s.requests[id])
    ensures AskedLate(past + [Event(s, e, Next(s, e))], |past|)
  {
    var ev := Event(s, e, Next(s, e));
    assert (past + [ev])[|past|] == ev;
    if e.Provision? || e.Assign? {
      var r := s.requests[e.id];
      assert Earned(past, e.id, r);
      var i: nat, j: nat :| PassedBoth(past, e.id, r, i, j);
      StillPassed(past, ev, e.id, r, i, j);
      assert j < |past|;
    }
    hide Next;
  }

  // ---------------------------------------------------------------- runs

  lemma {:induction false} RunKeepsInv(past: seq<Event>, s: State, steps: seq<Step>)
    requires ServicesInv(s) && Inv(past, s) && CanRun(s, steps)
    ensures Inv(past + Events(s, steps), Run(s, steps))
    decreases |steps|
  {
    hide Inv, ServicesInv, Enabled, Next;
    if steps == [] {
      assert past + Events(s, steps) == past;
    } else {
      var s' := Next(s, steps[0]);
      var ev := Event(s, steps[0], s');
      StepKeepsInv(past, s, steps[0]);
      StepKeepsServices(s, steps[0]);
      RunKeepsInv(past + [ev], s', steps[1..]);
      assert past + [ev] + Events(s', steps[1..]) == past + Events(s, steps);
    }
  }

  lemma FreshEarned(s: State)
    requires Fresh(s)
    ensures ServicesInv(s) && Inv([], s)
  {
  }

  /**
   * Over every run from a fresh deployment each debit has been earned. A creation found room in the quota and money in the wallet, then
   * got its machine, then paid its price for a row with that machine that runs for 30 days. A purchase found its service without an
   * extra address and money in the wallet, then got an address, then paid the monthly price and added both to the row. A renewal read
   * the row, then found the price of all its months in the wallet, then paid that and wrote back the row it had read with the new
   * end: its months behind the later of the old end and the moment it looked at the wallet. No commit changes another row.
   */
  lemma EveryChargeIsEarned(s: State, steps: seq<Step>, m: Movement)
    requires Fresh(s) && CanRun(s, steps) && m in Run(s, steps).db.history && m.Debit?
    ensures exists n: nat :: ChargeEarned(Events(s, steps), m, n)
  {
    FreshEarned(s);
    RunKeepsInv([], s, steps);
    assert [] + Events(s, steps) == Events(s, steps);
    hide Run, CanRun, Events, ChargeEarned, Earned, AskedLate, Fresh;
  }

  /** And the provider is asked for a machine or an address only behind both checks of the request. */
  lemma ProviderIsAskedLate(s: State, steps: seq<Step>, n: nat)
    requires Fresh(s) && CanRun(s, steps) && n < |steps|
    ensures AskedLate(Events(s, steps), n)
  {
    FreshEarned(s);
    RunKeepsInv([], s, steps);
    assert [] + Events(s, steps) == Events(s, steps);
    hide Run, CanRun, ChargeEarned, Earned, AskedLate, Fresh;
  }
}
