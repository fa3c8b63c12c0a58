// Who is answerable for a machine at the provider (src/api/reseller-api.ts:1203-1313).
module SagaMachines {
  import opened Common
  import opened IdempotencyStore
  import opened ResellerDb
  import opened ResellerSaga
  import opened SagaServices

  /** `Stranded`: its rollback used up all attempts. A crashed request keeps the machine it had. */
  datatype Owner = Service(id: ServiceId) | InFlight(request: RequestId) | Stranded

  ghost predicate Owns(s: State, o: Owner, v: VmId) {
    match o
    case Service(id) => id in s.db.rows && s.db.rows[id].vmid == v
    case InFlight(r) => r in s.requests && Holding(s.requests[r].phase) == Some(v)
    case Stranded => v in s.stranded
  }

  /** Every machine that exists has exactly one owner, and nothing owns a machine that does not exist. */
  ghost predicate MachinesAccounted(s: State) {
    && (forall o, v :: Owns(s, o, v) ==> v in s.live)
    && (forall o, o', v :: Owns(s, o, v) && Owns(s, o', v) ==> o == o')
    && (forall v :: v in s.live ==> exists o :: Owns(s, o, v))
  }

  /** Ownership and the set of machines are as before. */
  lemma SameOwners(s: State, s': State)
    requires MachinesAccounted(s) && s'.live == s.live
    requires forall o, v :: Owns(s', o, v) <==> Owns(s, o, v)
    ensures MachinesAccounted(s')
  {
  }

  /** The owner `a` handed the machine `v` over to `b`. */
  lemma HandedOver(s: State, s': State, a: Owner, b: Owner, v: VmId)
    requires MachinesAccounted(s) && s'.live == s.live && Owns(s, a, v) && a != b
    requires forall o, w :: o != a && o != b ==> (Owns(s', o, w) <==> Owns(s, o, w))
    requires forall w :: !Owns(s', a, w)
    requires forall w :: Owns(s', b, w) <==> w == v || Owns(s, b, w)
    requires forall w :: Owns(s, a, w) ==> w == v
    ensures MachinesAccounted(s')
  {
    forall w | w in s'.live ensures exists o :: Owns(s', o, w) {
      var o :| Owns(s, o, w);
      if o == a {
        assert Owns(s', b, w);
      } else {
        assert Owns(s', o, w);
      }
    }
  }

  /** The holdings of request `id` went from `before` to `after`; nothing else about ownership changed. */
  lemma SameExceptHolding(s: State, s': State, id: RequestId)
    requires s'.db.rows == s.db.rows && s'.stranded == s.stranded
    requires id in s'.requests
    requires forall r :: r != id ==> (r in s'.requests <==> r in s.requests)
    requires forall r :: r in s.requests && r != id ==> s'.requests[r] == s.requests[r]
    ensures forall o, v :: o != InFlight(id) ==> (Owns(s', o, v) <==> Owns(s, o, v))
  {
  }

  lemma QuietKeeps(s: State, e: Step)
    requires MachinesAccounted(s) && Enabled(s, e)
    requires !e.Tick? && !e.Pay? && !e.Commit? && !e.Provision? && !e.DeleteVm?
    ensures MachinesAccounted(Next(s, e))
  {
    var s' := Next(s, e);
    StepFrame(s, e);
    OnlyItsRequest(s, e);
    SameExceptHolding(s, s', e.id);
    assert forall v :: Owns(s', InFlight(e.id), v) <==> Owns(s, InFlight(e.id), v) by {
      QuietHolding(s, e);
    }
    SameOwners(s, s');
  }

  lemma QuietHolding(s: State, e: Step)
    requires Enabled(s, e)
    requires !e.Tick? && !e.Pay? && !e.Commit? && !e.Provision? && !e.DeleteVm?
    ensures e.id in Next(s, e).requests
    ensures Holding(Next(s, e).requests[e.id].phase) == if e.id in s.requests then Holding(s.requests[e.id].phase) else None
  {
    hide Begun, Released, CompletedRecords, Afford, Registered, OverQuota;
  }

  lemma ProvisionKeeps(s: State, e: Step)
    requires MachinesAccounted(s) && Enabled(s, e) && e.Provision?
    ensures MachinesAccounted(Next(s, e))
  {
    var s' := Next(s, e);
    SameExceptHolding(s, s', e.id);
    if e.vm.None? {
      SameOwners(s, s');
    } else {
      assert Owns(s', InFlight(e.id), e.vm.value);
      forall w | w in s'.live ensures exists o :: Owns(s', o, w) {
        if w != e.vm.value {
          var o :| Owns(s, o, w);
          assert Owns(s', o, w);
        }
      }
    }
  }

  lemma DeleteKeeps(s: State, e: Step)
    requires MachinesAccounted(s) && Enabled(s, e) && e.DeleteVm?
    ensures MachinesAccounted(Next(s, e))
  {
    var s' := Next(s, e);
    var RollingBack(v, tries) := s.requests[e.id].phase;
    assert Owns(s, InFlight(e.id), v);
    if e.ok {
      SameExceptHolding(s, s', e.id);
      forall w | w in s'.live ensures exists o :: Owns(s', o, w) {
        var o :| Owns(s, o, w);
        assert Owns(s', o, w);
      }
    } else if tries + 1 < DELETE_ATTEMPTS {
      SameExceptHolding(s, s', e.id);
      SameOwners(s, s');
    } else {
      SameExceptHolding(s, s'.(stranded := s.stranded), e.id);
      assert forall o, w :: o != Stranded ==> (Owns(s', o, w) <==> Owns(s'.(stranded := s.stranded), o, w));
      HandedOver(s, s', InFlight(e.id), Stranded, v);
    }
  }

  lemma CommitKeeps(s: State, e: Step)
    requires MachinesAccounted(s) && ServicesInv(s) && Enabled(s, e) && e.Commit?
    ensures MachinesAccounted(Next(s, e))
  {
    var s', id := Next(s, e), e.id;
    OnlyItsRequest(s, e);
    StepFrame(s, e);
    var r := s.requests[id];
    if r.phase.Unregistered? && s'.requests[id].phase.Booked? {
      var service := s.db.nextId;
      assert service !in s.db.rows;
      assert s'.db.rows == s.db.rows[service := s'.db.rows[service]] && s'.db.rows[service].vmid == r.phase.vmid;
      assert Owns(s, InFlight(id), r.phase.vmid);
      HandedOver(s, s', InFlight(id), Service(service), r.phase.vmid);
    } else {
      CommitSameVm(s, e);
      assert forall o, v :: Owns(s', o, v) <==> Owns(s, o, v);
      SameOwners(s, s');
    }
  }

  lemma CommitSameVm(s: State, e: Step)
    requires ServicesInv(s) && Enabled(s, e) && e.Commit?
    requires !(s.requests[e.id].phase.Unregistered? && Next(s, e).requests[e.id].phase.Booked?)
    ensures Next(s, e).db.rows.Keys == s.db.rows.Keys
    ensures forall id :: id in s.db.rows ==> Next(s, e).db.rows[id].vmid == s.db.rows[id].vmid
                                             && Next(s, e).db.rows[id].reseller == s.db.rows[id].reseller
    ensures Holding(Next(s, e).requests[e.id].phase) == Holding(s.requests[e.id].phase)
  {
    var r := s.requests[e.id];
    if r.phase.Priced? {
      assert SnapshotFits(s, r, r.phase.snapshot);
    }
  }

  lemma StepKeepsMachines(s: State, e: Step)
    requires MachinesAccounted(s) && ServicesInv(s) && Enabled(s, e)
    ensures MachinesAccounted(Next(s, e))
  {
    if e.Tick? || e.Pay? {
      SameOwners(s, Next(s, e));
    } else if e.Commit? {
      CommitKeeps(s, e);
    } else if e.Provision? {
      ProvisionKeeps(s, e);
    } else if e.DeleteVm? {
      DeleteKeeps(s, e);
    } else {
      QuietKeeps(s, e);
    }
  }

  /**
   * In every run, under any failures of provider and database: each machine that exists is referenced by exactly one
   * service row, or held by exactly one request, or left over from a rollback whose attempts all failed.
   */
  lemma {:induction false} MachinesStayAccounted(s: State, steps: seq<Step>)
    requires MachinesAccounted(s) && ServicesInv(s) && CanRun(s, steps)
    ensures MachinesAccounted(Run(s, steps))
    decreases |steps|
  {
    if steps != [] {
      StepKeepsMachines(s, steps[0]);
      StepKeepsServices(s, steps[0]);
      MachinesStayAccounted(Next(s, steps[0]), steps[1..]);
    }
  }

  /** Once no handler runs and none has crashed, machines belong to paid services, except for failed rollbacks. */
  lemma QuietMeansServed(s: State)
    requires MachinesAccounted(s)
    requires forall id :: id in s.requests ==> Holding(s.requests[id].phase).None?
    ensures forall v :: v in s.live ==> v in s.stranded || Registered(s.db, v)
    ensures forall id :: id in s.db.rows ==> s.db.rows[id].vmid in s.live
  {
    forall v | v in s.live ensures v in s.stranded || Registered(s.db, v) {
      var o :| Owns(s, o, v);
    }
    forall id | id in s.db.rows ensures s.db.rows[id].vmid in s.live {
      assert Owns(s, Service(id), s.db.rows[id].vmid);
    }
  }

  /** Under the provider's promise of fresh ids, the handler's check for a registered machine never fires. */
  lemma FreshMachineIsUnregistered(s: State, id: RequestId)
    requires MachinesAccounted(s) && id in s.requests && s.requests[id].phase.HasVm?
    ensures !Registered(s.db, s.requests[id].phase.vmid)
  {
    var v := s.requests[id].phase.vmid;
    assert Owns(s, InFlight(id), v);
    if Registered(s.db, v) {
      var service :| service in s.db.rows && s.db.rows[service].vmid == v;
      assert Owns(s, Service(service), v);
    }
  }

  /** A machine that a row has already is deleted again at once; any other one goes on to be inserted. */
  lemma RegisteredIsRolledBack(s: State, id: RequestId)
    requires Enabled(s, CheckVmid(id))
    ensures var v := s.requests[id].phase.vmid;
            Next(s, CheckVmid(id)) ==
              Move(s, id, if exists service :: service in s.db.rows && s.db.rows[service].vmid == v then RollingBack(v, 0)
                          else Unregistered(v))
  {
  }

  /** `deleteProvisionedVmWithRetry`: `outcomes` says which attempts the provider would carry out. */
  method DeleteProvisionedVmWithRetry(outcomes: seq<bool>, attempts: nat) returns (deleted: bool, tried: nat)
    requires |outcomes| >= attempts
    ensures tried <= attempts
    ensures deleted <==> exists i :: 0 <= i < attempts && outcomes[i]
    ensures deleted ==> tried > 0 && outcomes[tried - 1] && forall i :: 0 <= i < tried - 1 ==> !outcomes[i]
    ensures !deleted ==> tried == attempts
  {
    deleted, tried := false, 0;
    while tried < attempts && !deleted
      invariant tried <= attempts
      invariant deleted ==> tried > 0 && outcomes[tried - 1]
      invariant forall i :: 0 <= i < tried && (deleted ==> i < tried - 1) ==> !outcomes[i]
    {
      deleted := outcomes[tried];
      tried := tried + 1;
    }
  }
}
