// The reseller API's paid requests (create a service, buy an extra IPv4 address, renew) as steps of one system.
// Every `await` of a handler ends a step, so steps of different requests interleave freely; providers, the database and
// the clock choose the outcomes that the steps take as arguments.
// Sources: src/api/reseller-api.ts, src/api/reseller-api-vm-ops.ts.
module ResellerSaga {
  import opened Common
  import opened IdempotencyStore
  import opened ResellerDb

  const MONTH_MS: nat := 30 * 24 * 60 * 60 * 1000
  const DELETE_ATTEMPTS: nat := 4

  datatype Job =
    | Create(price: nat)
    | BuyIpv4(target: ServiceId)
    | Renew(target: ServiceId, months: nat)

  /** What the client is told. */
  datatype Reply =
    | Refused
    | ToldConflict
    | ToldInProgress
    | Replayed(status: nat, service: ServiceId)
    | Served(service: ServiceId)

  datatype Phase =
    | Arrived                                          // the idempotency prelude has not run
    | Accepted                                         // the prelude said to go on
    | Checked                                          // create: below the quota; buy: below the address limit
    | Loaded(snapshot: Row)                            // renew: the service row as the handler read it
    | Funded                                           // the wallet covered the price when it was read
    | Priced(snapshot: Row, amount: nat, expire: nat)  // renew: likewise, with the sum and the new expiry worked out
    | HasVm(vmid: VmId)                                // createVM returned a machine
    | Unregistered(vmid: VmId)                         // and no row has it yet
    | HasIpv4                                          // buy: the provider assigned an address
    | RollingBack(vmid: VmId, tries: nat)              // deleteProvisionedVmWithRetry, so many attempts done
    | Releasing                                        // about to give the idempotency key back and refuse
    | Booked(service: ServiceId)                       // the transaction committed; the answer is not recorded yet
    | Finished(reply: Reply)
    | Crashed(leak: Option<VmId>)                      // an exception left the handler; the machine it had, if any

  /** `charge` is the service the request's transaction was committed for. */
  datatype Request = Request(
    reseller: ResellerId, key: Option<Key>, hash: Hash, job: Job, phase: Phase, charge: Option<ServiceId>)

  datatype State = State(
    now: nat,
    ttl: nat,                        // RESELLER_API_IDEMPOTENCY_TTL_SEC
    monthly: nat,                    // getExtraIpv4MonthlyPriceUsd
    records: Records<ServiceId>,
    db: Db,
    live: set<VmId>,                 // machines that exist at the provider
    stranded: set<VmId>,             // machines whose rollback ran out of attempts
    addressed: set<RequestId>,        // requests the provider assigned an address to
    overwritten: set<ServiceId>,     // services whose address count a renewal wrote back from an older read
    requests: map<RequestId, Request>)

  datatype Step =
    | Tick(ms: nat)
    | Pay(wallet: WalletId, amount: nat)
    | Arrive(id: RequestId, reseller: ResellerId, key: Option<Key>, hash: Hash, job: Job)
    | Prelude(id: RequestId)
    | Reject(id: RequestId)                            // payload, plan, ownership, suspension, missing provider feature
    | Check(id: RequestId)                             // quota, address limit, or reading the row to renew
    | CheckFunds(id: RequestId)
    | Provision(id: RequestId, vm: Option<VmId>)
    | CheckVmid(id: RequestId)
    | Assign(id: RequestId, ok: bool)
    | Commit(id: RequestId, dbFails: bool)
    | DeleteVm(id: RequestId, ok: bool)
    | Release(id: RequestId)
    | Answer(id: RequestId)
    | Crash(id: RequestId)

  // ---------------------------------------------------------------- helpers

  function Put(s: State, id: RequestId, r: Request): State {
    s.(requests := s.requests[id := r])
  }

  function Move(s: State, id: RequestId, phase: Phase): State
    requires id in s.requests
  {
    Put(s, id, s.requests[id].(phase := phase))
  }

  /** The services the reseller has. */
  function Owned(db: Db, reseller: ResellerId): set<ServiceId> {
    set id | id in db.rows && db.rows[id].reseller == reseller
  }

  predicate OverQuota(db: Db, reseller: ResellerId) {
    && reseller in db.resellers
    && db.resellers[reseller].maxVps > 0
    && |Owned(db, reseller)| >= db.resellers[reseller].maxVps
  }

  /** `parseMonthsToDays`, in milliseconds. */
  function RenewedMs(months: nat): nat {
    if months == 1 || months == 3 || months == 6 || months == 12 then months * MONTH_MS else MONTH_MS
  }

  function ReplyTo(outcome: Outcome<ServiceId>): Phase {
    match outcome
    case Proceed => Accepted
    case Replay(status, service) => Finished(Replayed(status, service))
    case Conflict => Finished(ToldConflict)
    case InProgress => Finished(ToldInProgress)
  }

  /** The request may still be running its handler behind the prelude. */
  predicate Running(p: Phase) {
    !p.Arrived? && !p.Finished? && !p.Crashed?
  }

  /** The machine the request is answerable for. */
  function Holding(p: Phase): Option<VmId> {
    match p
    case HasVm(v) => Some(v)
    case Unregistered(v) => Some(v)
    case RollingBack(v, _) => Some(v)
    case Crashed(leak) => leak
    case _ => None
  }

  function Committed(s: State, id: RequestId, dbFails: bool): State
    requires id in s.requests && (s.requests[id].phase.Unregistered? || s.requests[id].phase.HasIpv4? || s.requests[id].phase.Priced?)
    requires !s.requests[id].phase.Unregistered? ==> !s.requests[id].job.Create?
    requires s.requests[id].phase.Unregistered? ==> s.requests[id].job.Create?
  {
    var r := s.requests[id];
    match r.phase
    case Unregistered(v) =>
      var result := CreateTx(s.db, r.reseller, r.job.price, v, s.now + MONTH_MS, id);
      if dbFails || !result.Saved? then Move(s, id, RollingBack(v, 0))
      else Put(s, id, r.(phase := Booked(result.service), charge := Some(result.service))).(db := result.db)
    case Priced(snapshot, amount, expire) =>
      var result := RenewTx(s.db, r.reseller, r.job.target, snapshot, amount, expire, id);
      if dbFails then Move(s, id, Crashed(None))
      else if !result.Saved? then Move(s, id, Releasing)
      else
        var stale := r.job.target in s.db.rows && s.db.rows[r.job.target].extraIpv4 != snapshot.extraIpv4;
        Put(s, id, r.(phase := Booked(result.service), charge := Some(result.service)))
          .(db := result.db, overwritten := if stale then s.overwritten + {r.job.target} else s.overwritten)
    case _ =>
      var result := ExtraIpv4Tx(s.db, r.reseller, r.job.target, s.monthly, id);
      if dbFails then Move(s, id, Crashed(None))
      else if !result.Saved? then Move(s, id, Releasing)
      else Put(s, id, r.(phase := Booked(result.service), charge := Some(result.service))).(db := result.db)
  }

  // ---------------------------------------------------------------- steps

  /** `idempotencyStoreKey`: the key carries reseller and route. Renewals do not use the store. */
  predicate KeyFits(key: Option<Key>, reseller: ResellerId, job: Job) {
    key.Some? ==>
      && key.value.reseller == reseller
      && match job
         case Create(_) => key.value.route == CreateRoute
         case BuyIpv4(target) => key.value.route == Ipv4Route(target)
         case Renew(_, _) => false
  }

  predicate Enabled(s: State, e: Step) {
    match e
    case Tick(_) => true
    case Pay(w, _) => w in s.db.balances
    case Arrive(id, reseller, key, _, job) => id !in s.requests && KeyFits(key, reseller, job)
    case Prelude(id) => id in s.requests && s.requests[id].phase.Arrived?
    case Reject(id) => id in s.requests && (s.requests[id].phase.Accepted? || s.requests[id].phase.Checked?)
    case Check(id) => id in s.requests && s.requests[id].phase.Accepted?
    case CheckFunds(id) => id in s.requests && (s.requests[id].phase.Checked? || s.requests[id].phase.Loaded?)
    case Provision(id, vm) =>
      && id in s.requests && s.requests[id].phase.Funded? && s.requests[id].job.Create?
      && (vm.Some? ==> vm.value !in s.live)
    case CheckVmid(id) => id in s.requests && s.requests[id].phase.HasVm?
    case Assign(id, _) => id in s.requests && s.requests[id].phase.Funded? && s.requests[id].job.BuyIpv4?
    case Commit(id, _) =>
      && id in s.requests
      && (match s.requests[id].phase
          case Unregistered(_) => s.requests[id].job.Create?
          case HasIpv4 => s.requests[id].job.BuyIpv4?
          case Priced(_, _, _) => s.requests[id].job.Renew?
          case _ => false)
    case DeleteVm(id, _) => id in s.requests && s.requests[id].phase.RollingBack?
    case Release(id) => id in s.requests && s.requests[id].phase.Releasing?
    case Answer(id) => id in s.requests && s.requests[id].phase.Booked?
    case Crash(id) => id in s.requests && Running(s.requests[id].phase)
  }

  function Next(s: State, e: Step): State
    requires Enabled(s, e)
  {
    match e
    case Tick(ms) => s.(now := s.now + ms)
    case Pay(w, amount) => s.(db := Credited(s.db, w, amount))
    case Arrive(id, reseller, key, hash, job) => Put(s, id, Request(reseller, key, hash, job, Arrived, None))
    case Prelude(id) =>
      var r := s.requests[id];
      if r.key.None? then Move(s, id, Accepted)
      else
        var (outcome, records) := Begun(s.records, r.key.value, r.hash, s.now, s.ttl);
        Move(s, id, ReplyTo(outcome)).(records := records)
    case Reject(id) => Move(s, id, Releasing)
    case Check(id) =>
      var r := s.requests[id];
      (match r.job
       case Create(_) => Move(s, id, if OverQuota(s.db, r.reseller) then Releasing else Checked)
       case BuyIpv4(target) =>
         Move(s, id, if target !in s.db.rows || s.db.rows[target].reseller != r.reseller
                        || s.db.rows[target].extraIpv4 >= MAX_EXTRA_IPV4 then Releasing else Checked)
       case Renew(target, _) =>
         Move(s, id, if target !in s.db.rows || s.db.rows[target].reseller != r.reseller then Releasing
                     else Loaded(s.db.rows[target])))
    case CheckFunds(id) =>
      var r := s.requests[id];
      if r.phase.Loaded? then
        var amount := if r.job.Renew? then r.phase.snapshot.renewalPrice * r.job.months else 0;
        var months := if r.job.Renew? then r.job.months else 0;
        Move(s, id, if Afford(s.db, r.reseller, amount).NoFunds? then Releasing
                    else Priced(r.phase.snapshot, amount, Max(s.now, r.phase.snapshot.expireAt) + RenewedMs(months)))
      else
        Move(s, id, if Afford(s.db, r.reseller, if r.job.Create? then r.job.price else s.monthly).NoFunds? then Releasing
                    else Funded)
    case Provision(id, vm) =>
      if vm.None? then Move(s, id, Releasing)
      else Move(s, id, HasVm(vm.value)).(live := s.live + {vm.value})
    case CheckVmid(id) =>
      var v := s.requests[id].phase.vmid;
      Move(s, id, if Registered(s.db, v) then RollingBack(v, 0) else Unregistered(v))
    case Assign(id, ok) =>
      if ok then Move(s, id, HasIpv4).(addressed := s.addressed + {id}) else Move(s, id, Releasing)
    case Commit(id, dbFails) => Committed(s, id, dbFails)
    case DeleteVm(id, ok) =>
      var RollingBack(v, tries) := s.requests[id].phase;
      if ok then Move(s, id, Releasing).(live := s.live - {v})
      else if tries + 1 < DELETE_ATTEMPTS then Move(s, id, RollingBack(v, tries + 1))
      else Move(s, id, Releasing).(stranded := s.stranded + {v})
    case Release(id) =>
      var r := s.requests[id];
      var s' := Move(s, id, Finished(Refused));
      if r.key.None? then s' else s'.(records := Released(s.records, r.key.value, r.hash))
    case Answer(id) =>
      var r := s.requests[id];
      var s' := Move(s, id, Finished(Served(r.phase.service)));
      if r.key.None? then s'
      else s'.(records := CompletedRecords(s.records, r.key.value, r.hash, 200, r.phase.service, s.now, s.ttl))
    case Crash(id) => Move(s, id, Crashed(Holding(s.requests[id].phase)))
  }

  /** The request a step belongs to, if any. */
  predicate IsStepOf(e: Step, id: RequestId) {
    match e
    case Tick(_) => false
    case Pay(_, _) => false
    case _ => e.id == id
  }

  /** A step changes the request it belongs to and no other. */
  lemma OnlyItsRequest(s: State, e: Step)
    requires Enabled(s, e)
    ensures e.Tick? || e.Pay? ==> Next(s, e).requests == s.requests
    ensures !e.Tick? && !e.Pay? ==>
              && e.id in Next(s, e).requests
              && Next(s, e).requests == s.requests[e.id := Next(s, e).requests[e.id]]
  {
    hide Begun, Released, CompletedRecords, Afford, Registered, OverQuota, CreateTx, ExtraIpv4Tx, RenewTx, Credited;
  }

  /** What a step leaves alone. */
  lemma StepFrame(s: State, e: Step)
    requires Enabled(s, e)
    ensures var s' := Next(s, e);
            && s'.now >= s.now && s'.ttl == s.ttl && s'.monthly == s.monthly
            && (forall id :: id in s.requests ==> id in s'.requests)
            && (forall id :: id in s.requests && !IsStepOf(e, id) ==> s'.requests[id] == s.requests[id])
            && (forall id :: id in s'.requests && !IsStepOf(e, id) ==> id in s.requests)
            && (!e.Pay? && !e.Commit? ==> s'.db == s.db && s'.overwritten == s.overwritten)
            && (!e.Prelude? && !e.Release? && !e.Answer? ==> s'.records == s.records)
            && (!e.Provision? && !e.DeleteVm? ==> s'.live == s.live && s'.stranded == s.stranded)
            && (!e.Assign? ==> s'.addressed == s.addressed)
  {
    OnlyItsRequest(s, e);
    SharedFrame(s, e);
    hide Next, Enabled;
  }

  lemma SharedFrame(s: State, e: Step)
    requires Enabled(s, e)
    ensures var s' := Next(s, e);
            && s'.now >= s.now && s'.ttl == s.ttl && s'.monthly == s.monthly
            && (!e.Pay? && !e.Commit? ==> s'.db == s.db && s'.overwritten == s.overwritten)
            && (!e.Prelude? && !e.Release? && !e.Answer? ==> s'.records == s.records)
            && (!e.Provision? && !e.DeleteVm? ==> s'.live == s.live && s'.stranded == s.stranded)
            && (!e.Assign? ==> s'.addressed == s.addressed)
  {
    if e.Commit? {
      CommitFrame(s, e);
    } else {
      QuietFrame(s, e);
    }
    hide Next, Enabled;
  }

  lemma CommitFrame(s: State, e: Step)
    requires Enabled(s, e) && e.Commit?
    ensures var s' := Next(s, e);
            && s'.now == s.now && s'.ttl == s.ttl && s'.monthly == s.monthly && s'.records == s.records
            && s'.live == s.live && s'.stranded == s.stranded && s'.addressed == s.addressed
  {
    hide CreateTx, ExtraIpv4Tx, RenewTx;
  }

  lemma QuietFrame(s: State, e: Step)
    requires Enabled(s, e) && !e.Commit?
    ensures var s' := Next(s, e);
            && s'.now >= s.now && s'.ttl == s.ttl && s'.monthly == s.monthly
            && (!e.Pay? ==> s'.db == s.db && s'.overwritten == s.overwritten)
            && (!e.Prelude? && !e.Release? && !e.Answer? ==> s'.records == s.records)
            && (!e.Provision? && !e.DeleteVm? ==> s'.live == s.live && s'.stranded == s.stranded)
            && (!e.Assign? ==> s'.addressed == s.addressed)
  {
    hide Begun, Released, CompletedRecords, Afford, Registered, OverQuota, Credited, Committed, RenewedMs, ReplyTo;
  }

  /** A request keeps what it was sent with; only a committed transaction gives it a charge. */
  lemma RequestFrame(s: State, e: Step, id: RequestId)
    requires Enabled(s, e) && id in s.requests && id in Next(s, e).requests
    ensures var r, r' := s.requests[id], Next(s, e).requests[id];
            && r'.reseller == r.reseller && r'.key == r.key && r'.hash == r.hash && r'.job == r.job
            && (!e.Commit? ==> r'.charge == r.charge)
            && (r'.charge != r.charge ==> r'.phase.Booked? && r'.charge == Some(r'.phase.service))
  {
    if IsStepOf(e, id) {
      OwnStep(s, e);
    } else {
      StepFrame(s, e);
      hide Next;
    }
  }

  lemma OwnStep(s: State, e: Step)
    requires Enabled(s, e) && !e.Tick? && !e.Pay? && !e.Arrive?
    ensures e.id in Next(s, e).requests
    ensures var r, r' := s.requests[e.id], Next(s, e).requests[e.id];
            && r'.reseller == r.reseller && r'.key == r.key && r'.hash == r.hash && r'.job == r.job
            && (!e.Commit? ==> r'.charge == r.charge)
            && (r'.charge != r.charge ==> r'.phase.Booked? && r'.charge == Some(r'.phase.service))
  {
    if e.Commit? {
      OwnCommit(s, e);
    } else {
      OwnQuietStep(s, e);
    }
    hide Next, Enabled;
  }

  lemma OwnCommit(s: State, e: Step)
    requires Enabled(s, e) && e.Commit?
    ensures e.id in Next(s, e).requests
    ensures var r, r' := s.requests[e.id], Next(s, e).requests[e.id];
            && r'.reseller == r.reseller && r'.key == r.key && r'.hash == r.hash && r'.job == r.job
            && (r'.charge != r.charge ==> r'.phase.Booked? && r'.charge == Some(r'.phase.service))
  {
    hide CreateTx, ExtraIpv4Tx, RenewTx;
  }

  lemma OwnQuietStep(s: State, e: Step)
    requires Enabled(s, e) && !e.Tick? && !e.Pay? && !e.Arrive? && !e.Commit?
    ensures e.id in Next(s, e).requests
    ensures exists phase :: Next(s, e).requests[e.id] == s.requests[e.id].(phase := phase)
  {
    hide Begun, Released, CompletedRecords, Afford, Registered, OverQuota, Committed, RenewedMs, ReplyTo;
    assert Next(s, e).requests[e.id] == s.requests[e.id].(phase := Next(s, e).requests[e.id].phase);
  }

  // ---------------------------------------------------------------- runs

  predicate CanRun(s: State, steps: seq<Step>)
    decreases |steps|
  {
    steps == [] || (Enabled(s, steps[0]) && CanRun(Next(s, steps[0]), steps[1..]))
  }

  function Run(s: State, steps: seq<Step>): State
    requires CanRun(s, steps)
    decreases |steps|
  {
    if steps == [] then s else Run(Next(s, steps[0]), steps[1..])
  }

  /** A fresh deployment: wallets with money in them, no services, nothing going on. */
  predicate Fresh(s: State) {
    && s.records == map[] && s.requests == map[] && s.addressed == {} && s.overwritten == {}
    && s.live == {} && s.stranded == {}
    && s.db.rows == map[] && s.db.history == []
    && forall w :: w in s.db.balances ==> s.db.balances[w] >= 0
  }
}
