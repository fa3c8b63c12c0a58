// A machine is left over only when four attempts to delete it failed (src/api/reseller-api-vm-ops.ts:41-52 and its caller,
// src/api/reseller-api.ts:1203-1313).
module SagaRollbacks {
  import opened Common
  import opened IdempotencyStore
  import opened ResellerDb
  import opened ResellerSaga

  // ---------------------------------------------------------------- counting attempts

  /** How many of the steps are attempts of this request to delete its machine that end like `ok`. */
  function Attempts(past: seq<Step>, id: RequestId, ok: bool): nat {
    if past == [] then 0
    else
      var n := |past| - 1;
      Attempts(past[..n], id, ok) + if past[n] == DeleteVm(id, ok) then 1 else 0
  }

  /** In one of the steps the provider gives the machine to the request. */
  predicate Given(past: seq<Step>, id: RequestId, v: VmId) {
    Provision(id, Some(v)) in past
  }

  lemma OneMoreStep(past: seq<Step>, e: Step, id: RequestId, ok: bool)
    ensures Attempts(past + [e], id, ok) == Attempts(past, id, ok) + if e == DeleteVm(id, ok) then 1 else 0
  {
    assert (past + [e])[..|past|] == past;
  }

  /** What the attempts so far say about where a request stands. */
  predicate PhaseFits(s: State, id: RequestId, failed: nat, done: nat) {
    if id !in s.requests then failed == 0 && done == 0
    else match s.requests[id].phase
      case RollingBack(_, tries) => failed == tries < 4 && done == 0
      case Releasing => failed + done <= 4 && done <= 1
      case Finished(_) => failed + done <= 4 && done <= 1
      case Crashed(_) => failed + done <= 4 && done <= 1
      case _ => failed == 0 && done == 0
  }

  /** The machine the request is to insert or to delete; a crashed request does neither. */
  function Machine(p: Phase): Option<VmId> {
    match p
    case HasVm(v) => Some(v)
    case Unregistered(v) => Some(v)
    case RollingBack(v, _) => Some(v)
    case _ => None
  }

  /** The request has not been given a machine yet, and still may be. */
  predicate BeforeVm(s: State, id: RequestId) {
    id in s.requests ==>
      var p := s.requests[id].phase;
      p.Arrived? || p.Accepted? || p.Checked? || p.Loaded? || p.Funded?
  }

  predicate RequestFits(s: State, past: seq<Step>, id: RequestId) {
    PhaseFits(s, id, Attempts(past, id, false), Attempts(past, id, true))
  }

  /** The request was given the machine, and four of its attempts to delete it failed. */
  predicate GaveUp(past: seq<Step>, id: RequestId, v: VmId) {
    Given(past, id, v) && Attempts(past, id, false) == 4
  }

  /** A machine comes to a request that waits for one, to each at most one, and the request's phase names it. */
  ghost predicate GiftsFit(s: State, past: seq<Step>) {
    && (forall id, v :: Given(past, id, v) ==> !BeforeVm(s, id))
    && (forall id, v, w :: Given(past, id, v) && Given(past, id, w) ==> v == w)
    && (forall id :: id in s.requests && Machine(s.requests[id].phase).Some? ==>
          Given(past, id, Machine(s.requests[id].phase).value))
  }

  /** Where everything stands behind the steps `past`. */
  ghost predicate Inv(s: State, past: seq<Step>) {
    && (forall id :: RequestFits(s, past, id))
    && GiftsFit(s, past)
    && (forall v :: v in s.stranded <==> exists id :: GaveUp(past, id, v))
  }

  // ---------------------------------------------------------------- single steps

  /** The step of a request that concerns no machine. */
  lemma QuietFits(s: State, e: Step, failed: nat, done: nat)
    requires Enabled(s, e) && !e.Tick? && !e.Pay? && !e.DeleteVm? && !e.Provision?
    requires PhaseFits(s, e.id, failed, done)
    ensures PhaseFits(Next(s, e), e.id, failed, done)
    ensures BeforeVm(Next(s, e), e.id) ==> BeforeVm(s, e.id)
    ensures e.id in Next(s, e).requests
    ensures var m := Machine(Next(s, e).requests[e.id].phase);
            m.Some? ==> e.id in s.requests && Machine(s.requests[e.id].phase) == m
  {
    if e.Commit? {
      hide CreateTx, ExtraIpv4Tx, RenewTx;
    } else {
      hide Begun, Released, CompletedRecords, Afford, Registered, OverQuota, Committed, RenewedMs;
    }
  }

  /** Neither an attempt nor a gift. */
  predicate Uncounted(e: Step) {
    !e.DeleteVm? && !(e.Provision? && e.vm.Some?)
  }

  /** Only request `id` moved, and neither got a machine nor tried to delete one. */
  lemma SameInv(s: State, s': State, past: seq<Step>, e: Step, id: RequestId)
    requires Inv(s, past) && s'.stranded == s.stranded && Uncounted(e)
    requires forall k :: k != id ==> (k in s'.requests <==> k in s.requests) && (k in s.requests ==> s'.requests[k] == s.requests[k])
    requires PhaseFits(s', id, Attempts(past, id, false), Attempts(past, id, true))
    requires BeforeVm(s', id) ==> BeforeVm(s, id)
    requires id in s'.requests && Machine(s'.requests[id].phase).Some? ==>
               id in s.requests && Machine(s.requests[id].phase) == Machine(s'.requests[id].phase)
    ensures Inv(s', past + [e])
  {
    var now := past + [e];
    forall k ensures RequestFits(s', now, k) {
      OneMoreStep(past, e, k, false);
      OneMoreStep(past, e, k, true);
      assert RequestFits(s, past, k);
    }
    hide PhaseFits, RequestFits;
    forall k, v ensures Given(now, k, v) <==> Given(past, k, v) {
    }
    forall k, v ensures GaveUp(now, k, v) <==> GaveUp(past, k, v) {
      OneMoreStep(past, e, k, false);
    }
    hide GaveUp, Given, Attempts;
    forall k, v | Given(now, k, v) ensures !BeforeVm(s', k) {
      assert Given(past, k, v);
    }
  }

  lemma StepKeepsInv(s: State, past: seq<Step>, e: Step)
    requires Inv(s, past) && Enabled(s, e)
    ensures Inv(Next(s, e), past + [e])
  {
    var s' := Next(s, e);
    if e.Tick? || e.Pay? {
      OnlyItsRequest(s, e);
      SharedFrame(s, e);
      hide Next, Enabled, Attempts, GiftsFit;
      assert RequestFits(s, past, 0);
      SameInv(s, s', past, e, 0);
    } else if e.DeleteVm? {
      AttemptKeepsInv(s, past, e);
    } else if e.Provision? {
      GiftKeepsInv(s, past, e);
    } else {
      OnlyItsRequest(s, e);
      SharedFrame(s, e);
      assert RequestFits(s, past, e.id);
      QuietFits(s, e, Attempts(past, e.id, false), Attempts(past, e.id, true));
      hide Next, Enabled, Attempts, PhaseFits, GiftsFit;
      SameInv(s, s', past, e, e.id);
    }
  }

  lemma GiftKeepsInv(s: State, past: seq<Step>, e: Step)
    requires Inv(s, past) && Enabled(s, e) && e.Provision?
    ensures Inv(Next(s, e), past + [e])
  {
    var s', now := Next(s, e), past + [e];
    assert RequestFits(s, past, e.id);
    if e.vm.None? {
      hide Attempts, GiftsFit;
      SameInv(s, s', past, e, e.id);
    } else {
      assert BeforeVm(s, e.id);
      forall id ensures RequestFits(s', now, id) {
        OneMoreStep(past, e, id, false);
        OneMoreStep(past, e, id, true);
        assert RequestFits(s, past, id);
      }
      forall id, w ensures Given(now, id, w) <==> Given(past, id, w) || (id == e.id && w == e.vm.value) {
      }
      forall id, w ensures GaveUp(now, id, w) <==> GaveUp(past, id, w) {
        OneMoreStep(past, e, id, false);
        OneMoreStep(past, e, e.id, false);
      }
      hide GaveUp, RequestFits, Given;
      assert GiftsFit(s', now);
    }
  }

  lemma AttemptFits(s: State, past: seq<Step>, e: Step)
    requires Inv(s, past) && Enabled(s, e) && e.DeleteVm?
    ensures forall id :: RequestFits(Next(s, e), past + [e], id)
  {
    hide GiftsFit, GaveUp;
    forall id ensures RequestFits(Next(s, e), past + [e], id) {
      OneMoreStep(past, e, id, false);
      OneMoreStep(past, e, id, true);
      assert RequestFits(s, past, id);
    }
  }

  lemma AttemptKeepsInv(s: State, past: seq<Step>, e: Step)
    requires Inv(s, past) && Enabled(s, e) && e.DeleteVm?
    ensures Inv(Next(s, e), past + [e])
  {
    var s', now := Next(s, e), past + [e];
    var RollingBack(v, tries) := s.requests[e.id].phase;
    assert RequestFits(s, past, e.id);
    assert Given(past, e.id, v) by { assert Machine(s.requests[e.id].phase) == Some(v); }
    AttemptFits(s, past, e);
    forall id, w ensures Given(now, id, w) <==> Given(past, id, w) {
    }
    hide Given;
    forall id, w ensures GaveUp(now, id, w) <==> GaveUp(past, id, w) || (id == e.id && w == v && !e.ok && tries == 3) {
      OneMoreStep(past, e, id, false);
    }
    assert s'.stranded == if !e.ok && tries == 3 then s.stranded + {v} else s.stranded;
    assert GiftsFit(s', now);
    hide GiftsFit, RequestFits, GaveUp, Next, Enabled, Attempts;
    assert !e.ok && tries == 3 ==> GaveUp(now, e.id, v);
    forall w ensures w in s'.stranded <==> exists id :: GaveUp(now, id, w) {
      if w in s.stranded {
        var id :| GaveUp(past, id, w);
        assert GaveUp(now, id, w);
      }
    }
  }

  // ---------------------------------------------------------------- runs

  lemma {:induction false} RunKeepsInv(s: State, past: seq<Step>, steps: seq<Step>)
    requires Inv(s, past) && CanRun(s, steps)
    ensures Inv(Run(s, steps), past + steps)
    decreases |steps|
  {
    hide Inv, Enabled, Next;
    if steps == [] {
      assert past + steps == past;
    } else {
      StepKeepsInv(s, past, steps[0]);
      RunKeepsInv(Next(s, steps[0]), past + [steps[0]], steps[1..]);
      assert past + [steps[0]] + steps[1..] == past + steps;
    }
  }

  lemma FreshFits(s: State)
    requires Fresh(s)
    ensures Inv(s, [])
  {
  }

  /**
   * Over every run from a fresh deployment: a machine is left over from a rollback if and only if the one request that the provider
   * gave it to tried four times to delete it and failed each time. No request tries more often or succeeds twice.
   */
  lemma StrandedMeansFourFailures(s: State, steps: seq<Step>)
    requires Fresh(s) && CanRun(s, steps)
    ensures forall v :: v in Run(s, steps).stranded <==> exists id :: GaveUp(steps, id, v)
    ensures forall id, v, w :: Given(steps, id, v) && Given(steps, id, w) ==> v == w
    ensures forall id :: Attempts(steps, id, false) + Attempts(steps, id, true) <= 4 && Attempts(steps, id, true) <= 1
  {
    FreshFits(s);
    RunKeepsInv(s, [], steps);
    assert [] + steps == steps;
    hide Run, Attempts, Given, Fresh;
    forall id ensures Attempts(steps, id, false) + Attempts(steps, id, true) <= 4 && Attempts(steps, id, true) <= 1 {
      assert RequestFits(Run(s, steps), steps, id);
    }
  }

  // ---------------------------------------------------------------- the retry loop as steps

  /** One attempt after the other. */
  function Deletions(id: RequestId, outcomes: seq<bool>): (steps: seq<Step>)
    ensures |steps| == |outcomes|
  {
    if outcomes == [] then [] else [DeleteVm(id, outcomes[0])] + Deletions(id, outcomes[1..])
  }

  lemma {:induction false} DeletionsRun(s: State, id: RequestId, v: VmId, done: nat, outcomes: seq<bool>)
    requires id in s.requests && s.requests[id].phase == RollingBack(v, done) && outcomes != [] && done + |outcomes| <= 4
    requires forall i :: 0 <= i < |outcomes| - 1 ==> !outcomes[i]
    requires outcomes[|outcomes| - 1] || done + |outcomes| == 4
    ensures CanRun(s, Deletions(id, outcomes))
    ensures Run(s, Deletions(id, outcomes)) ==
              if outcomes[|outcomes| - 1] then Move(s, id, Releasing).(live := s.live - {v})
              else Move(s, id, Releasing).(stranded := s.stranded + {v})
    decreases |outcomes|
  {
    var steps := Deletions(id, outcomes);
    var e := DeleteVm(id, outcomes[0]);
    assert steps[0] == e && steps[1..] == Deletions(id, outcomes[1..]);
    var s' := Next(s, e);
    if |outcomes| == 1 {
      assert Deletions(id, []) == [] && CanRun(s', []) && Run(s', []) == s';
    } else {
      assert !outcomes[0] && s' == Move(s, id, RollingBack(v, done + 1));
      DeletionsRun(s', id, v, done + 1, outcomes[1..]);
      assert s'.requests[id := s'.requests[id].(phase := Releasing)] == s.requests[id := s.requests[id].(phase := Releasing)];
    }
  }

  /**
   * The steps of a rollback are the retry loop with four attempts: whatever the provider does, they stop where the loop stops, and
   * the machine goes exactly when the loop reports success.
   */
  lemma RollbackIsRetry(s: State, id: RequestId, v: VmId, outcomes: seq<bool>, deleted: bool, tried: nat)
    requires id in s.requests && s.requests[id].phase == RollingBack(v, 0) && |outcomes| >= 4
    requires tried <= 4 && (deleted <==> exists i :: 0 <= i < 4 && outcomes[i])
    requires deleted ==> tried > 0 && outcomes[tried - 1] && forall i :: 0 <= i < tried - 1 ==> !outcomes[i]
    requires !deleted ==> tried == 4
    ensures CanRun(s, Deletions(id, outcomes[..tried]))
    ensures Run(s, Deletions(id, outcomes[..tried])) ==
              if deleted then Move(s, id, Releasing).(live := s.live - {v})
              else Move(s, id, Releasing).(stranded := s.stranded + {v})
  {
    DeletionsRun(s, id, v, 0, outcomes[..tried]);
  }
}
