// What the saga keeps about services, prices and wallets (src/api/reseller-api.ts, src/api/reseller-api-vm-ops.ts).
module SagaServices {
  import opened Common
  import opened IdempotencyStore
  import opened ResellerDb
  import opened ResellerSaga

  // ---------------------------------------------------------------- wallets

  lemma StepAddsUp(s: State, e: Step, opening: map<WalletId, int>)
    requires LedgerAddsUp(s.db, opening) && Enabled(s, e)
    ensures LedgerAddsUp(Next(s, e).db, opening)
  {
    match e
    case Pay(w, amount) => CreditAddsUp(s.db, opening, w, amount);
    case Commit(id, dbFails) =>
      var r := s.requests[id];
      var amount := match r.phase
        case Unregistered(_) => r.job.price
        case Priced(_, a, _) => a
        case _ => s.monthly;
      var purpose := match r.phase
        case Unregistered(_) => ServiceCreate
        case Priced(_, _, _) => ServiceRenew
        case _ => ExtraIpv4;
      var service := if r.job.Create? then s.db.nextId else r.job.target;
      if Afford(s.db, r.reseller, amount).Funds? {
        DebitAddsUp(s.db, opening, r.reseller, amount, purpose, service, id);
        LedgerIgnoresRows(Debited(s.db, r.reseller, amount, purpose, service, id), Next(s, e).db, opening);
        LedgerIgnoresRows(s.db, Next(s, e).db, opening);
      }
    case _ =>
  }

  lemma LedgerIgnoresRows(a: Db, b: Db, opening: map<WalletId, int>)
    requires LedgerAddsUp(a, opening)
    ensures a.balances == b.balances && a.history == b.history ==> LedgerAddsUp(b, opening)
  {
  }

  /**
   * In every run, whatever interleaves and whatever fails: each wallet holds its opening balance plus the payments less
   * the debits, is never overdrawn, and every ledger entry shows the balance right behind its own debit.
   */
  lemma {:induction false} WalletsAddUp(s: State, steps: seq<Step>, opening: map<WalletId, int>)
    requires LedgerAddsUp(s.db, opening) && CanRun(s, steps)
    ensures LedgerAddsUp(Run(s, steps).db, opening)
    decreases |steps|
  {
    if steps != [] {
      StepAddsUp(s, steps[0], opening);
      WalletsAddUp(Next(s, steps[0]), steps[1..], opening);
    }
  }

  // ---------------------------------------------------------------- services and their prices

  /**
   * The row of a service agrees with the ledger: it was paid for once when it was created, its renewal price is that
   * price plus the monthly price of each extra address it counts, and it counts the addresses that were charged,
   * unless a renewal wrote back an older count.
   */
  ghost predicate RowFits(s: State, id: ServiceId)
    requires id in s.db.rows
  {
    var row := s.db.rows[id];
    var h := s.db.history;
    && id < s.db.nextId
    && Charges(h, id, ServiceCreate) == 1
    && row.renewalPrice == Charged(h, id, ServiceCreate) + row.extraIpv4 * s.monthly
    && row.extraIpv4 <= MAX_EXTRA_IPV4
    && row.extraIpv4 <= Charges(h, id, ExtraIpv4)
    && (id !in s.overwritten ==> row.extraIpv4 == Charges(h, id, ExtraIpv4))
    && Charged(h, id, ExtraIpv4) == Charges(h, id, ExtraIpv4) * s.monthly
  }

  /** A row that was read for a renewal still names the same machine, and its price and count still fit together. */
  ghost predicate SnapshotFits(s: State, r: Request, snapshot: Row) {
    && r.job.Renew? && r.job.target in s.db.rows
    && var row := s.db.rows[r.job.target];
    && snapshot.vmid == row.vmid && snapshot.reseller == row.reseller == r.reseller
    && snapshot.renewalPrice == Charged(s.db.history, r.job.target, ServiceCreate) + snapshot.extraIpv4 * s.monthly
    && snapshot.extraIpv4 <= MAX_EXTRA_IPV4
    && snapshot.extraIpv4 <= Charges(s.db.history, r.job.target, ExtraIpv4)
  }

  ghost predicate ServicesFit(s: State) {
    && (forall id :: id in s.db.rows ==> RowFits(s, id))
    && (forall id, p :: id !in s.db.rows ==> Charges(s.db.history, id, p) == 0 == Charged(s.db.history, id, p))
    && (forall id :: id in s.requests && s.requests[id].phase.Loaded? ==>
          SnapshotFits(s, s.requests[id], s.requests[id].phase.snapshot))
    && (forall id :: id in s.requests && s.requests[id].phase.Priced? ==>
          SnapshotFits(s, s.requests[id], s.requests[id].phase.snapshot))
  }

  /** The database has not changed and no request holds a row it did not hold before. */
  lemma ServicesUntouched(s: State, s': State, touched: RequestId)
    requires ServicesFit(s)
    requires s'.db == s.db && s'.monthly == s.monthly && s'.overwritten == s.overwritten
    requires forall id :: id in s'.requests && id != touched ==> id in s.requests && s'.requests[id] == s.requests[id]
    requires touched in s'.requests && (s'.requests[touched].phase.Loaded? || s'.requests[touched].phase.Priced?) ==>
               SnapshotFits(s, s'.requests[touched], s'.requests[touched].phase.snapshot)
    ensures ServicesFit(s')
  {
    hide Charges, Charged;
    forall id | id in s'.db.rows ensures RowFits(s', id) { assert RowFits(s, id); }
    forall id | id in s'.requests && (s'.requests[id].phase.Loaded? || s'.requests[id].phase.Priced?)
      ensures SnapshotFits(s', s'.requests[id], s'.requests[id].phase.snapshot)
    {
      assert SnapshotFits(s, s'.requests[id], s'.requests[id].phase.snapshot);
    }
  }

  /** One more movement, and possibly one changed row: what must hold for the services to fit again. */
  lemma ServicesBooked(s: State, s': State, m: Movement, service: ServiceId, touched: RequestId)
    requires ServicesFit(s)
    requires s'.monthly == s.monthly && s'.db.nextId >= s.db.nextId && s'.db.history == s.db.history + [m]
    requires m.Debit? ==> m.service == service && service in s'.db.rows
    requires forall id :: id in s'.db.rows && id != service ==> id in s.db.rows && s'.db.rows[id] == s.db.rows[id]
    requires forall id :: id in s.db.rows ==> id in s'.db.rows && s'.db.rows[id].vmid == s.db.rows[id].vmid
                                              && s'.db.rows[id].reseller == s.db.rows[id].reseller
    requires m.Debit? && m.purpose.ServiceCreate? ==> service !in s.db.rows
    requires forall id :: id in s'.overwritten <==> id in s.overwritten || (id == service && id in s'.overwritten)
    requires service in s'.db.rows ==> RowFits(s', service)
    requires forall id :: id in s'.requests && id != touched ==> id in s.requests && s'.requests[id] == s.requests[id]
    requires touched in s'.requests ==> !s'.requests[touched].phase.Loaded? && !s'.requests[touched].phase.Priced?
    ensures ServicesFit(s')
  {
    hide Charges, Charged;
    forall id | id in s'.db.rows ensures RowFits(s', id) {
      if id != service {
        assert RowFits(s, id);
        AppendedCharges(s.db.history, m, id, ServiceCreate);
        AppendedCharges(s.db.history, m, id, ExtraIpv4);
      }
    }
    hide RowFits;
    forall id, p | id !in s'.db.rows
      ensures Charges(s'.db.history, id, p) == 0 == Charged(s'.db.history, id, p)
    {
      AppendedCharges(s.db.history, m, id, p);
    }
    forall id | id in s'.requests && (s'.requests[id].phase.Loaded? || s'.requests[id].phase.Priced?)
      ensures SnapshotFits(s', s'.requests[id], s'.requests[id].phase.snapshot)
    {
      assert SnapshotFits(s, s'.requests[id], s'.requests[id].phase.snapshot);
      SnapshotStays(s, s', m, service, s'.requests[id], s'.requests[id].phase.snapshot);
    }
  }

  /** A row that was read stays right behind one more movement. */
  lemma SnapshotStays(s: State, s': State, m: Movement, service: ServiceId, r: Request, snapshot: Row)
    requires SnapshotFits(s, r, snapshot)
    requires s'.monthly == s.monthly && s'.db.history == s.db.history + [m]
    requires m.Debit? ==> m.service == service && (m.purpose.ServiceCreate? ==> service !in s.db.rows)
    requires forall id :: id in s.db.rows ==> id in s'.db.rows && s'.db.rows[id].vmid == s.db.rows[id].vmid
                                              && s'.db.rows[id].reseller == s.db.rows[id].reseller
    ensures SnapshotFits(s', r, snapshot)
  {
    hide Charges, Charged;
    AppendedCharges(s.db.history, m, r.job.target, ServiceCreate);
    AppendedCharges(s.db.history, m, r.job.target, ExtraIpv4);
  }

  lemma CreateFits(s: State, id: RequestId)
    requires ServicesFit(s) && Enabled(s, Commit(id, false)) && s.requests[id].phase.Unregistered?
    requires s.db.nextId !in s.db.rows && s.db.nextId !in s.overwritten
    requires CreateTx(s.db, s.requests[id].reseller, s.requests[id].job.price, s.requests[id].phase.vmid, s.now + MONTH_MS, id).Saved?
    ensures ServicesFit(Next(s, Commit(id, false)))
  {
    hide Charges, Charged;
    var s' := Next(s, Commit(id, false));
    var m := s'.db.history[|s.db.history|];
    var service := s.db.nextId;
    AppendedCharges(s.db.history, m, service, ServiceCreate);
    AppendedCharges(s.db.history, m, service, ExtraIpv4);
    assert RowFits(s', service);
    ServicesBooked(s, s', m, service, id);
  }

  lemma BuyFits(s: State, id: RequestId)
    requires ServicesFit(s) && Enabled(s, Commit(id, false)) && s.requests[id].phase.HasIpv4?
    requires ExtraIpv4Tx(s.db, s.requests[id].reseller, s.requests[id].job.target, s.monthly, id).Saved?
    ensures ServicesFit(Next(s, Commit(id, false)))
  {
    hide Charges, Charged;
    var s' := Next(s, Commit(id, false));
    var m := s'.db.history[|s.db.history|];
    var service := s.requests[id].job.target;
    assert RowFits(s, service);
    AppendedCharges(s.db.history, m, service, ServiceCreate);
    AppendedCharges(s.db.history, m, service, ExtraIpv4);
    OneMore(s.db.rows[service].extraIpv4, s.monthly);
    OneMore(Charges(s.db.history, service, ExtraIpv4), s.monthly);
    assert RowFits(s', service);
    ServicesBooked(s, s', m, service, id);
  }

  lemma OneMore(n: nat, price: nat)
    ensures (n + 1) * price == n * price + price
  {
  }

  lemma RenewFits(s: State, id: RequestId)
    requires ServicesFit(s) && Enabled(s, Commit(id, false)) && s.requests[id].phase.Priced?
    requires Next(s, Commit(id, false)).requests[id].phase.Booked?
    ensures ServicesFit(Next(s, Commit(id, false)))
  {
    hide Charges, Charged;
    var s' := Next(s, Commit(id, false));
    var m := s'.db.history[|s.db.history|];
    var r := s.requests[id];
    var service := r.job.target;
    assert RowFits(s, service) && SnapshotFits(s, r, r.phase.snapshot);
    AppendedCharges(s.db.history, m, service, ServiceCreate);
    AppendedCharges(s.db.history, m, service, ExtraIpv4);
    assert RowFits(s', service);
    ServicesBooked(s, s', m, service, id);
  }

  /**
   * A renewal that commits leaves a row that counts exactly the addresses that were charged if and only if the row it read
   * counted as many as the row that it writes over.
   */
  lemma RenewalKeepsCountIff(s: State, id: RequestId)
    requires ServicesFit(s) && Enabled(s, Commit(id, false)) && s.requests[id].phase.Priced?
    requires s.requests[id].job.target !in s.overwritten
    requires Afford(s.db, s.requests[id].reseller, s.requests[id].phase.amount).Funds?
    ensures var db, target := Next(s, Commit(id, false)).db, s.requests[id].job.target;
            && target in s.db.rows && target in db.rows
            && (db.rows[target].extraIpv4 == Charges(db.history, target, ExtraIpv4) <==>
                s.requests[id].phase.snapshot.extraIpv4 == s.db.rows[target].extraIpv4)
  {
    hide Charges, Charged;
    var s' := Next(s, Commit(id, false));
    var r := s.requests[id];
    assert SnapshotFits(s, r, r.phase.snapshot) && RowFits(s, r.job.target);
    AppendedCharges(s.db.history, s'.db.history[|s.db.history|], r.job.target, ExtraIpv4);
  }

  ghost predicate ServicesInv(s: State) {
    && ServicesFit(s)
    && (forall id :: id in s.db.rows ==> id < s.db.nextId)
    && (forall id :: id in s.overwritten ==> id in s.db.rows)
  }

  lemma StepKeepsServices(s: State, e: Step)
    requires ServicesInv(s) && Enabled(s, e)
    ensures ServicesInv(Next(s, e))
  {
    hide Charges, Charged;
    if e.Pay? {
      PayFits(s, e.wallet, e.amount);
    } else if e.Commit? {
      CommitFits(s, e);
    } else if e.Tick? {
      ServicesUntouched(s, Next(s, e), 0);
    } else {
      StepFrame(s, e);
      QuietPhase(s, e);
      ServicesUntouched(s, Next(s, e), e.id);
    }
  }

  lemma QuietPhase(s: State, e: Step)
    requires ServicesInv(s) && Enabled(s, e) && !e.Pay? && !e.Commit? && !e.Tick?
    ensures var r := Next(s, e).requests[e.id];
            r.phase.Loaded? || r.phase.Priced? ==> SnapshotFits(Next(s, e), r, r.phase.snapshot)
  {
    hide Charges, Charged;
    match e
    case Check(id) =>
      if s.requests[id].job.Renew? && s.requests[id].job.target in s.db.rows {
        assert RowFits(s, s.requests[id].job.target);
      }
    case CheckFunds(id) =>
      if s.requests[id].phase.Loaded? {
        assert SnapshotFits(s, s.requests[id], s.requests[id].phase.snapshot);
      }
    case _ =>
  }

  lemma CommitFits(s: State, e: Step)
    requires ServicesInv(s) && Enabled(s, e) && e.Commit?
    ensures ServicesInv(Next(s, e))
  {
    hide Charges, Charged;
    var s', id := Next(s, e), e.id;
    if s'.requests[id].phase.Booked? {
      assert s' == Next(s, Commit(id, false));
      hide RowFits;
      match s.requests[id].phase
      case Unregistered(_) => CreateFits(s, id);
      case Priced(snapshot, _, _) =>
        assert SnapshotFits(s, s.requests[id], snapshot);
        RenewFits(s, id);
      case _ => BuyFits(s, id);
    } else {
      StepFrame(s, e);
      ServicesUntouched(s, s', id);
    }
  }

  lemma PayFits(s: State, w: WalletId, amount: nat)
    requires ServicesInv(s) && w in s.db.balances
    ensures ServicesFit(s.(db := Credited(s.db, w, amount)))
  {
    hide Charges, Charged;
    var s' := s.(db := Credited(s.db, w, amount));
    var m := TopUp(w, amount);
    forall id | id in s'.db.rows ensures RowFits(s', id) {
      assert RowFits(s, id);
      AppendedCharges(s.db.history, m, id, ServiceCreate);
      AppendedCharges(s.db.history, m, id, ExtraIpv4);
    }
    forall id, p | id !in s'.db.rows ensures Charges(s'.db.history, id, p) == 0 == Charged(s'.db.history, id, p) {
      AppendedCharges(s.db.history, m, id, p);
    }
    forall id | id in s'.requests && (s'.requests[id].phase.Loaded? || s'.requests[id].phase.Priced?)
      ensures SnapshotFits(s', s'.requests[id], s'.requests[id].phase.snapshot)
    {
      assert SnapshotFits(s, s'.requests[id], s'.requests[id].phase.snapshot);
      SnapshotStays(s, s', m, 0, s'.requests[id], s'.requests[id].phase.snapshot);
    }
  }

  /** In every run a service exists exactly when its price was debited and entered, and its row agrees with the ledger. */
  lemma {:induction false} ServicesAgreeWithLedger(s: State, steps: seq<Step>)
    requires ServicesInv(s) && CanRun(s, steps)
    ensures ServicesInv(Run(s, steps))
    ensures var e := Run(s, steps);
            forall id :: id in e.db.rows <==> Charges(e.db.history, id, ServiceCreate) == 1
    decreases |steps|
  {
    if steps != [] {
      StepKeepsServices(s, steps[0]);
      ServicesAgreeWithLedger(Next(s, steps[0]), steps[1..]);
    }
  }

  // ---------------------------------------------------------------- stale renewals

  /** A renewal of the service writes back a count of addresses that is no longer the row's. */
  predicate SavesStale(s: State, e: Step, service: ServiceId)
    requires Enabled(s, e)
  {
    && e.Commit? && !e.dbFails && s.requests[e.id].phase.Priced? && s.requests[e.id].job.target == service
    && service in s.db.rows && s.db.rows[service].extraIpv4 != s.requests[e.id].phase.snapshot.extraIpv4
  }

  predicate NeverSavesStale(s: State, steps: seq<Step>, service: ServiceId)
    requires CanRun(s, steps)
    decreases |steps|
  {
    steps == [] || (!SavesStale(s, steps[0], service) && NeverSavesStale(Next(s, steps[0]), steps[1..], service))
  }

  lemma OverwrittenByStale(s: State, e: Step, service: ServiceId)
    requires Enabled(s, e) && service !in s.overwritten && !SavesStale(s, e, service)
    ensures service !in Next(s, e).overwritten
  {
    if !e.Commit? {
      SharedFrame(s, e);
      hide Next;
    } else {
      hide CreateTx, ExtraIpv4Tx, RenewTx;
    }
  }

  lemma {:induction false} NeverOverwritten(s: State, steps: seq<Step>, service: ServiceId)
    requires CanRun(s, steps) && service !in s.overwritten && NeverSavesStale(s, steps, service)
    ensures service !in Run(s, steps).overwritten
    decreases |steps|
  {
    hide Enabled, Next, SavesStale;
    if steps != [] {
      OverwrittenByStale(s, steps[0], service);
      NeverOverwritten(Next(s, steps[0]), steps[1..], service);
    }
  }

  /** In every run in which no renewal of the service saves a stale count, its row counts exactly the addresses that were charged. */
  lemma CountIsExact(s: State, steps: seq<Step>, service: ServiceId)
    requires ServicesInv(s) && CanRun(s, steps) && service !in s.overwritten && NeverSavesStale(s, steps, service)
    requires service in Run(s, steps).db.rows
    ensures var e := Run(s, steps);
            e.db.rows[service].extraIpv4 == Charges(e.db.history, service, ExtraIpv4) <= MAX_EXTRA_IPV4
  {
    ServicesAgreeWithLedger(s, steps);
    NeverOverwritten(s, steps, service);
    assert RowFits(Run(s, steps), service);
    hide Run, Charges, Charged;
  }
}
