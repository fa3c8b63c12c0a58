// Whole runs of the pollers of TopUpSettlement.
module TopUpRuns {
  import opened Common
  import opened TopUps
  import opened TopUpSettlement

  function Begin(db: Db): State {
    State(db, map[], [], [])
  }

  /** Rows of a database that no poller is at work on: marked ones are completed, and verdicts agree with the gateway. */
  predicate Orderly(db: Db, paid: set<TopUpId>) {
    forall id :: id in db.topUps ==> RowOk(db.topUps[id], id in paid)
  }

  // ---------------------------------------------------------------- an honest gateway

  ghost predicate Inv(initial: Db, s: State, paid: set<TopUpId>) {
    && RowsOk(s, paid) && AllForward(initial, s.db) && CountsOk(initial, s) && Matched(initial, s) && Conserved(initial, s)
  }

  lemma MatchedPaysOnce(initial: Db, s: State, step: Step, paid: set<TopUpId>)
    requires Matched(initial, s) && RowsOk(s, paid) && Enabled(s, step) && Honest(s, step, paid) && AllForward(initial, s.db)
    ensures !PaysAgain(initial, s, step)
  {
    StepMatches(initial, s, step, paid);
    assert CreditedClosed(initial, s) by {
      assert forall id :: WasCredited(initial, s, id) ==> MarkedIn(s.db, id);
    }
    hide RowsOk, Matched;
    StepKeepsClosed(initial, s, step);
  }

  lemma ForwardChains(a: Db, b: Db, c: Db)
    requires AllForward(a, b) && AllForward(b, c)
    ensures AllForward(a, c)
  {
  }

  lemma {:induction false} HonestRunKeepsInv(initial: Db, s: State, steps: seq<Step>, paid: set<TopUpId>)
    requires Inv(initial, s, paid) && CanRun(s, steps) && HonestRun(s, steps, paid)
    ensures Inv(initial, Run(s, steps), paid) && AllForward(s.db, Run(s, steps).db)
    decreases |steps|
  {
    hide RowsOk, AllForward, CountsOk, Matched, Conserved, Enabled, Next, Honest, PaysAgain;
    if steps == [] {
      assert AllForward(s.db, s.db) by { ForwardToItself(s.db); }
    } else {
      var s' := Next(s, steps[0]);
      StepKeepsRows(s, steps[0], paid);
      StepMatches(initial, s, steps[0], paid);
      MatchedPaysOnce(initial, s, steps[0], paid);
      StepKeepsCounts(initial, s, steps[0]);
      StepConserves(initial, s, steps[0]);
      ForwardChains(initial, s.db, s'.db);
      HonestRunKeepsInv(initial, s', steps[1..], paid);
      ForwardChains(s.db, s'.db, Run(s', steps[1..]).db);
    }
  }

  lemma ForwardToItself(db: Db)
    ensures AllForward(db, db)
  {
  }

  lemma BeginsInOrder(db: Db, paid: set<TopUpId>)
    requires Orderly(db, paid)
    ensures Inv(db, Begin(db), paid)
  {
  }

  /**
   * Both pollers, any overlap, settlements in two halves, errors and crashes at any point, a gateway that never reports an
   * order both paid and dead: every top-up goes from created to completed or to expired and stays there; it ends completed
   * only if it was paid and expired only if it was not; it is credited at most once, by its amount and to its owner, and its
   * side effects begin at most once; and every balance is the initial one plus those credits and the other movements.
   */
  lemma HonestGatewaySettlesOnce(db: Db, steps: seq<Step>, paid: set<TopUpId>)
    requires Orderly(db, paid) && CanRun(Begin(db), steps) && HonestRun(Begin(db), steps, paid)
    ensures var s := Run(Begin(db), steps);
            && Orderly(s.db, paid) && AllForward(db, s.db)
            && Matched(db, s) && Conserved(db, s)
            && forall id :: Starts(s.effects, id) <= Credits(s.ledger, id) <= 1
  {
    BeginsInOrder(db, paid);
    HonestRunKeepsInv(db, Begin(db), steps, paid);
  }

  /** A settlement of an order that was paid ends with its row completed and marked, whoever did it. */
  lemma SettlementArrives(s: State, v: VisitId, now: int, paid: set<TopUpId>)
    requires RowsOk(s, paid) && Enabled(s, Settle(v, now)) && s.db.topUps[s.visits[v].id].owner in s.db.balances
    ensures var t := Next(s, Settle(v, now)).db.topUps[s.visits[v].id];
            t.status == Completed && t.creditedAt.Some?
  {
    var id := s.visits[v].id;
    assert VisitOk(s.db.topUps[id], id in paid, s.visits[v].phase) && RowOk(s.db.topUps[id], id in paid);
    SettledForward(s.db, id, s.visits[v].phase.snapshot, now);
  }

  // ---------------------------------------------------------------- the total

  function Total(ledger: seq<Entry>): int {
    if ledger == [] then 0 else (if ledger[0].Credit? then ledger[0].cents else 0) + Total(ledger[1..])
  }

  function Amounts(db: Db, ids: seq<TopUpId>): nat
    requires forall id :: id in ids ==> id in db.topUps
  {
    if ids == [] then 0 else Amounts(db, ids[1..]) + db.topUps[ids[0]].amount
  }

  /** Credits of the ledger that are for a row in `ids`. */
  function TotalOf(ledger: seq<Entry>, ids: seq<TopUpId>): int {
    if ledger == [] then 0
    else (if ledger[0].Credit? && ledger[0].id in ids then ledger[0].cents else 0) + TotalOf(ledger[1..], ids)
  }

  lemma {:induction false} TotalOfAll(ledger: seq<Entry>, ids: seq<TopUpId>)
    requires forall e :: e in ledger && e.Credit? ==> e.id in ids
    ensures TotalOf(ledger, ids) == Total(ledger)
  {
    if ledger != [] {
      assert ledger[0] in ledger;
      TotalOfAll(ledger[1..], ids);
    }
  }

  lemma {:induction false} TotalOfOneMore(ledger: seq<Entry>, db: Db, ids: seq<TopUpId>)
    requires ids != [] && ids[0] !in ids[1..] && ids[0] in db.topUps
    requires forall e :: e in ledger && e.Credit? && e.id == ids[0] ==> e.cents == db.topUps[ids[0]].amount
    ensures TotalOf(ledger, ids) == TotalOf(ledger, ids[1..]) + Credits(ledger, ids[0]) * db.topUps[ids[0]].amount
  {
    if ledger != [] {
      var e := ledger[0];
      assert e in ledger;
      TotalOfOneMore(ledger[1..], db, ids);
      assert e.Credit? ==> (e.id in ids <==> e.id == ids[0] || e.id in ids[1..]);
      var c := Credits(ledger[1..], ids[0]);
      assert (c + 1) * db.topUps[ids[0]].amount == c * db.topUps[ids[0]].amount + db.topUps[ids[0]].amount;
    }
  }

  lemma {:induction false} TotalOfNone(ledger: seq<Entry>)
    ensures TotalOf(ledger, []) == 0
  {
    if ledger != [] {
      TotalOfNone(ledger[1..]);
    }
  }

  lemma {:induction false} TotalOfRows(initial: Db, s: State, ids: seq<TopUpId>)
    requires Matched(initial, s)
    requires forall i, j :: 0 <= i < j < |ids| ==> ids[i] != ids[j]
    requires forall id :: id in ids ==> Fresh(initial, s.db, id)
    ensures TotalOf(s.ledger, ids) == Amounts(s.db, ids)
    decreases |ids|
  {
    if ids == [] {
      TotalOfNone(s.ledger);
    } else {
      assert ids[0] in ids;
      TotalOfRows(initial, s, ids[1..]);
      TotalOfOneMore(s.ledger, s.db, ids);
    }
  }

  /** All that was credited is the sum of the amounts of the rows that were completed and marked since the beginning. */
  lemma CreditedIsCompleted(initial: Db, s: State, ids: seq<TopUpId>)
    requires Matched(initial, s)
    requires forall i, j :: 0 <= i < j < |ids| ==> ids[i] != ids[j]
    requires forall id :: id in ids <==> Fresh(initial, s.db, id)
    ensures Total(s.ledger) == Amounts(s.db, ids)
  {
    forall e | e in s.ledger && e.Credit? ensures e.id in ids {
      CreditHasEntry(s.ledger, e);
    }
    TotalOfAll(s.ledger, ids);
    TotalOfRows(initial, s, ids);
  }

  lemma {:induction false} CreditHasEntry(ledger: seq<Entry>, e: Entry)
    requires e in ledger && e.Credit?
    ensures Credits(ledger, e.id) > 0
  {
    if ledger[0] != e {
      assert e in ledger[1..];
      CreditHasEntry(ledger[1..], e);
    }
  }

  // ---------------------------------------------------------------- any gateway, settlements in isolation

  predicate NoneHalfDone(s: State) {
    forall v :: v in s.visits ==> !s.visits[v].phase.Settling?
  }

  lemma {:induction false} IsolatedKeepsMarks(initial: Db, s: State, steps: seq<Step>)
    requires NoneHalfDone(s) && CanRun(s, steps) && Isolated(steps)
    ensures NeverLosesMark(initial, s, steps)
    decreases |steps|
  {
    hide WasCredited, Settled;
    if steps != [] {
      IsolatedKeepsMarks(initial, Next(s, steps[0]), steps[1..]);
    }
  }

  lemma {:induction false} RunConserves(initial: Db, s: State, steps: seq<Step>)
    requires Conserved(initial, s) && CanRun(s, steps)
    ensures Conserved(initial, Run(s, steps))
    decreases |steps|
  {
    hide Conserved, Enabled, Next;
    if steps != [] {
      StepConserves(initial, s, steps[0]);
      RunConserves(initial, Next(s, steps[0]), steps[1..]);
    }
  }

  lemma NothingIsCredited(db: Db)
    ensures CountsOk(db, Begin(db)) && CreditedClosed(db, Begin(db)) && Conserved(db, Begin(db))
  {
  }

  /**
   * When settlements run in isolation, no gateway can make the pollers credit or follow up a top-up twice, or credit one that was
   * marked before.
   */
  lemma IsolationSettlesOnce(db: Db, steps: seq<Step>)
    requires CanRun(Begin(db), steps) && Isolated(steps)
    ensures var s := Run(Begin(db), steps);
            && Conserved(db, s)
            && forall id :: Starts(s.effects, id) <= Credits(s.ledger, id) <= if MarkedIn(db, id) then 0 else 1
  {
    NothingIsCredited(db);
    IsolatedKeepsMarks(db, Begin(db), steps);
    CreditedOnceUnlessMarkIsLost(db, Begin(db), steps);
    RunConserves(db, Begin(db), steps);
  }

  // ---------------------------------------------------------------- any gateway, settlements in halves

  /**
   * Over every run from the beginning in which no mark was lost while a settlement would pay, nothing is credited or followed up
   * twice, whatever the gateways say; and the condition is exact: a step may be followed by a run that loses no mark either and
   * still ends with a second credit if and only if that step loses one.
   */
  lemma CreditedTwiceIff(db: Db, steps: seq<Step>, step: Step)
    requires CanRun(Begin(db), steps) && NeverLosesMark(db, Begin(db), steps) && Enabled(Run(Begin(db), steps), step)
    ensures var s := Run(Begin(db), steps);
            && CountsOk(db, s)
            && (LosesMark(db, s, step) <==>
                exists more :: CanRun(Next(s, step), more) && NeverLosesMark(db, Next(s, step), more)
                               && !CountsOk(db, Run(Next(s, step), more)))
  {
    NothingIsCredited(db);
    CreditedOnceUnlessMarkIsLost(db, Begin(db), steps);
    var s := Run(Begin(db), steps);
    hide Run, CanRun, NeverLosesMark, LosesMark, CountsOk, CreditedClosed, Enabled, Next;
    if LosesMark(db, s, step) {
      IsPaidAgain(db, s, step);
    } else {
      IsNotPaidAgain(db, s, step);
    }
  }

  lemma IsPaidAgain(db: Db, s: State, step: Step)
    requires CountsOk(db, s) && Enabled(s, step) && LosesMark(db, s, step)
    ensures exists more :: CanRun(Next(s, step), more) && NeverLosesMark(db, Next(s, step), more)
                           && !CountsOk(db, Run(Next(s, step), more))
  {
    var s' := Next(s, step);
    var w := LostMarkPaysAgain(db, s, step);
    var more := [Settle(w, 0)];
    hide CountsOk, Next;
    assert CanRun(s', more) && !CountsOk(db, Run(s', more));
    assert more[1..] == [];
    assert NeverLosesMark(db, s', more);
  }

  lemma IsNotPaidAgain(db: Db, s: State, step: Step)
    requires CountsOk(db, s) && CreditedClosed(db, s) && Enabled(s, step) && !LosesMark(db, s, step)
    ensures !exists more :: CanRun(Next(s, step), more) && NeverLosesMark(db, Next(s, step), more)
                            && !CountsOk(db, Run(Next(s, step), more))
  {
    hide CountsOk, CreditedClosed, Next, Enabled, LosesMark, Run, CanRun, NeverLosesMark;
    var s' := Next(s, step);
    StepKeepsClosed(db, s, step);
    StepKeepsCounts(db, s, step);
    forall more | CanRun(s', more) && NeverLosesMark(db, s', more) ensures CountsOk(db, Run(s', more)) {
      CreditedOnceUnlessMarkIsLost(db, s', more);
    }
  }

  // ---------------------------------------------------------------- side effects

  /** Polls that have credited the top-up and are about to begin its side effects. */
  function AboutToBegin(s: State, id: TopUpId): set<VisitId> {
    set v | v in s.visits && s.visits[v].id == id && s.visits[v].phase.Credited?
  }

  /** The step is the crash of a poll that has credited the top-up and not begun its side effects. */
  predicate LosesEffects(s: State, step: Step, id: TopUpId) {
    step.Drop? && step.v in AboutToBegin(s, id)
  }

  /** How often that happens in a run. */
  function EffectsLost(s: State, steps: seq<Step>, id: TopUpId): nat
    requires CanRun(s, steps)
    decreases |steps|
  {
    if steps == [] then 0 else (if LosesEffects(s, steps[0], id) then 1 else 0) + EffectsLost(Next(s, steps[0]), steps[1..], id)
  }

  /** Credits that are not accounted for by side effects that began or are about to. */
  function Unaccounted(s: State, id: TopUpId): int {
    Credits(s.ledger, id) - Starts(s.effects, id) - |AboutToBegin(s, id)|
  }

  lemma OneMoreBegins(s: State, s': State, v: VisitId, id: TopUpId)
    requires v in s.visits && !s.visits[v].phase.Credited?
    requires s'.visits == s.visits[v := s.visits[v].(phase := Credited)]
    ensures |AboutToBegin(s', id)| == |AboutToBegin(s, id)| + if s.visits[v].id == id then 1 else 0
  {
    assert AboutToBegin(s', id) == if s.visits[v].id == id then AboutToBegin(s, id) + {v} else AboutToBegin(s, id);
  }

  lemma SameBegin(s: State, s': State, v: VisitId, id: TopUpId)
    requires v in s.visits && !s.visits[v].phase.Credited? && s'.visits == s.visits - {v}
    ensures AboutToBegin(s', id) == AboutToBegin(s, id)
  {
  }

  lemma SettleAccounts(s: State, v: VisitId, snapshot: TopUp, now: int, id: TopUpId)
    requires At(s, v) && !s.visits[v].phase.Credited?
    ensures Unaccounted(SettleWith(s, v, snapshot, now), id) == Unaccounted(s, id)
  {
    hide Settled, AboutToBegin, Credits, Starts;
    var s' := SettleWith(s, v, snapshot, now);
    var k := s.visits[v].id;
    if Settled(s.db, k, snapshot, now).1 == Newly {
      AfterEntry(s.ledger, Credit(k, snapshot.owner, snapshot.amount), id, 0);
      OneMoreBegins(s, s', v, id);
    } else {
      SameBegin(s, s', v, id);
    }
  }

  lemma EffectAccounts(s: State, v: VisitId, id: TopUpId)
    requires Enabled(s, Effects(v))
    ensures Unaccounted(Next(s, Effects(v)), id) == Unaccounted(s, id)
  {
    AfterEffect(s.effects, s.visits[v].id, id);
    hide Starts, Credits;
    assert AboutToBegin(Next(s, Effects(v)), id) == if s.visits[v].id == id then AboutToBegin(s, id) - {v} else AboutToBegin(s, id);
  }

  lemma DropAccounts(s: State, v: VisitId, id: TopUpId)
    requires Enabled(s, Drop(v))
    ensures Unaccounted(Next(s, Drop(v)), id) == Unaccounted(s, id) + if LosesEffects(s, Drop(v), id) then 1 else 0
  {
    hide Starts, Credits;
    assert AboutToBegin(Next(s, Drop(v)), id) == AboutToBegin(s, id) - {v};
  }

  /** A step that credits nothing, begins nothing and ends no poll. */
  lemma OtherAccounts(s: State, step: Step, id: TopUpId)
    requires Enabled(s, step) && !step.Settle? && !step.SettleAlone? && !step.Effects? && !step.Drop?
    ensures Unaccounted(Next(s, step), id) == Unaccounted(s, id)
  {
    var s' := Next(s, step);
    assert AboutToBegin(s', id) == AboutToBegin(s, id) by { hide Starts, Credits, MarkedIn; }
    if step.Move? {
      AfterEntry(s.ledger, Moved(step.user, step.cents), id, 0);
    }
    hide Starts, Credits, AboutToBegin;
  }

  lemma StepAccounts(s: State, step: Step, id: TopUpId)
    requires Enabled(s, step)
    ensures Unaccounted(Next(s, step), id) == Unaccounted(s, id) + if LosesEffects(s, step, id) then 1 else 0
  {
    hide Unaccounted, AboutToBegin, Settled;
    match step
    case Settle(v, now) => SettleAccounts(s, v, s.visits[v].phase.snapshot, now, id);
    case SettleAlone(v, now) => SettleAccounts(s, v, s.db.topUps[s.visits[v].id], now, id);
    case Effects(v) => EffectAccounts(s, v, id);
    case Drop(v) => DropAccounts(s, v, id);
    case _ => OtherAccounts(s, step, id);
  }

  lemma {:induction false} RunAccounts(s: State, steps: seq<Step>, id: TopUpId)
    requires CanRun(s, steps)
    ensures Unaccounted(Run(s, steps), id) == Unaccounted(s, id) + EffectsLost(s, steps, id)
    decreases |steps|
  {
    hide Unaccounted, LosesEffects, Next, Enabled;
    if steps != [] {
      StepAccounts(s, steps[0], id);
      RunAccounts(Next(s, steps[0]), steps[1..], id);
    }
  }

  /**
   * Whatever gateways say: over every run from the beginning, each credit has had its side effects begun, or is about to, or its poll
   * crashed in between. So without such crashes, once nothing is left to do, side effects have begun exactly as often as credited.
   */
  lemma EffectsFollowCredits(db: Db, steps: seq<Step>, id: TopUpId)
    requires CanRun(Begin(db), steps)
    ensures var s := Run(Begin(db), steps);
            && Credits(s.ledger, id) == Starts(s.effects, id) + |AboutToBegin(s, id)| + EffectsLost(Begin(db), steps, id)
            && (EffectsLost(Begin(db), steps, id) == 0 && s.visits == map[] ==> Starts(s.effects, id) == Credits(s.ledger, id))
  {
    RunAccounts(Begin(db), steps, id);
    assert AboutToBegin(Begin(db), id) == {};
    var s := Run(Begin(db), steps);
    if s.visits == map[] {
      assert AboutToBegin(s, id) == {};
    }
  }

  /** With an honest gateway, no crash in between and nothing left to do: once for every row completed since the beginning. */
  lemma EffectsOnceForCompleted(db: Db, steps: seq<Step>, paid: set<TopUpId>, id: TopUpId)
    requires Orderly(db, paid) && CanRun(Begin(db), steps) && HonestRun(Begin(db), steps, paid)
    requires EffectsLost(Begin(db), steps, id) == 0 && Run(Begin(db), steps).visits == map[]
    ensures var s := Run(Begin(db), steps);
            Starts(s.effects, id) == if MarkedIn(s.db, id) && !MarkedIn(db, id) then 1 else 0
  {
    HonestGatewaySettlesOnce(db, steps, paid);
    EffectsFollowCredits(db, steps, id);
  }

  // ---------------------------------------------------------------- a poll that nothing interrupts

  lemma {:induction false} RunSnoc(s: State, steps: seq<Step>, e: Step)
    requires CanRun(s, steps) && Enabled(Run(s, steps), e)
    ensures CanRun(s, steps + [e]) && Run(s, steps + [e]) == Next(Run(s, steps), e)
    decreases |steps|
  {
    hide Enabled, Next;
    if steps == [] {
      assert steps + [e] == [e];
      assert CanRun(Next(s, e), [e][1..]);
    } else {
      assert (steps + [e])[1..] == steps[1..] + [e];
      RunSnoc(Next(s, steps[0]), steps[1..], e);
    }
  }

  lemma Extend(s: State, steps: seq<Step>, t: State, e: Step) returns (steps': seq<Step>, t': State)
    requires CanRun(s, steps) && Run(s, steps) == t && Enabled(t, e)
    ensures CanRun(s, steps') && Run(s, steps') == t' == Next(t, e)
  {
    RunSnoc(s, steps, e);
    steps', t' := steps + [e], Next(t, e);
  }

  /** What a poll does to a row that it finds alone: the settlement of a paid one, `Expired` over a dead one, nothing otherwise. */
  function Polled(db: Db, id: TopUpId, verdict: Verdict, now: int): Db
    requires id in db.topUps
  {
    match db.topUps[id].status
    case Created => PolledOnce(db, id, verdict, now)
    case Completed => Settled(db, id, db.topUps[id], now).0
    case Expired => db
  }

  /** A paid or completed row that is not marked, of a user who exists. */
  predicate IsDue(db: Db, id: TopUpId, verdict: Verdict)
    requires id in db.topUps
  {
    var t := db.topUps[id];
    (t.status == Completed || (t.status == Created && verdict == Paid)) && t.creditedAt.None? && t.owner in db.balances
  }

  lemma SettlesAloneAndBegins(s: State, steps: seq<Step>, t: State, v: VisitId, now: int) returns (steps': seq<Step>, t': State)
    requires CanRun(s, steps) && Run(s, steps) == t && Enabled(t, SettleAlone(v, now))
    requires t.db.topUps[t.visits[v].id].status != Expired
    ensures CanRun(s, steps') && Run(s, steps') == t'
    ensures var id := t.visits[v].id;
            var row := t.db.topUps[id];
            var due := row.creditedAt.None? && row.owner in t.db.balances;
            && t'.db == Settled(t.db, id, row, now).0 && t'.visits == t.visits - {v}
            && t'.ledger == t.ledger + (if due then [Credit(id, row.owner, row.amount)] else [])
            && t'.effects == t.effects + (if due then [id] else [])
  {
    var id := t.visits[v].id;
    var row := t.db.topUps[id];
    PaysWhenUnmarked(t.db, id, row, now);
    hide Settled, CanRun, Run;
    var u: State;
    steps', u := Extend(s, steps, t, SettleAlone(v, now));
    t' := u;
    if row.creditedAt.None? && row.owner in t.db.balances {
      assert u.visits[v] == Visit(id, Credited);
      steps', t' := Extend(s, steps', u, Effects(v));
      assert t'.visits == t.visits - {v};
    }
  }

  /**
   * A poll alone, for every row and every verdict: the row ends as the uninterrupted tick says, it is credited exactly when it is due,
   * its side effects begin exactly then, and the poll leaves nothing behind.
   */
  lemma PollAlone(s: State, v: VisitId, id: TopUpId, verdict: Verdict, now: int) returns (steps: seq<Step>)
    requires v !in s.visits && id in s.db.topUps
    ensures CanRun(s, steps)
    ensures var e, row := Run(s, steps), s.db.topUps[id];
            && e.db == Polled(s.db, id, verdict, now) && e.visits == s.visits
            && e.ledger == s.ledger + (if IsDue(s.db, id, verdict) then [Credit(id, row.owner, row.amount)] else [])
            && e.effects == s.effects + (if IsDue(s.db, id, verdict) then [id] else [])
  {
    var t, u, w: State;
    var row := s.db.topUps[id];
    assert CanRun(s, []) && Run(s, []) == s;
    hide CanRun, Run, Settled;
    steps, t := Extend(s, [], s, Read(v, id));
    w := t;
    match row.status
    case Expired =>
    case Completed => steps, w := SettlesAloneAndBegins(s, steps, t, v, now);
    case Created =>
      match verdict
      case Open => steps, w := Extend(s, steps, t, Drop(v));
      case Paid =>
        steps, u := Extend(s, steps, t, ReportPaid(v));
        steps, w := SettlesAloneAndBegins(s, steps, u, v, now);
      case Dead =>
        steps, u := Extend(s, steps, t, ReportDead(v));
        steps, w := Extend(s, steps, u, SaveExpired(v));
    assert w.visits == s.visits;
  }

  // ---------------------------------------------------------------- neither

  ghost predicate Reaches(s: State, t: State) {
    exists steps :: CanRun(s, steps) && Run(s, steps) == t
  }

  lemma ReachesItself(s: State)
    ensures Reaches(s, s)
  {
    assert CanRun(s, []) && Run(s, []) == s;
  }

  lemma StepsBack(s: State, step: Step, mid: State, t: State)
    requires Enabled(s, step) && Next(s, step) == mid && Reaches(mid, t)
    ensures Reaches(s, t)
  {
    hide Enabled, Next;
    var rest :| CanRun(mid, rest) && Run(mid, rest) == t;
    var steps := [step] + rest;
    assert steps[1..] == rest;
    assert CanRun(s, steps) && Run(s, steps) == t;
  }

  const ROW := TopUp(Created, 7, 500, None)

  /** Three ticks have read the row; one has heard that the order is dead, two that it is paid. */
  const THREE_TICKS := State(Db(map[1 := ROW], map[7 := 0]),
                             map[0 := Visit(1, Dying(ROW)), 1 := Visit(1, Cleared), 2 := Visit(1, Cleared)], [], [])

  /** Two settlements have read the row as created. */
  const BOTH_LOOKED := State(Db(map[1 := ROW], map[7 := 0]),
                             map[0 := Visit(1, Dying(ROW)), 1 := Visit(1, Settling(ROW)), 2 := Visit(1, Settling(ROW))], [], [])

  const PAID_ONCE := State(Db(map[1 := TopUp(Completed, 7, 500, Some(10))], map[7 := 500]),
                           map[0 := Visit(1, Dying(ROW)), 1 := Visit(1, Credited), 2 := Visit(1, Settling(ROW))],
                           [Credit(1, 7, 500)], [])

  const PAID_TWICE := State(Db(map[1 := TopUp(Expired, 7, 500, Some(20))], map[7 := 1000]),
                            map[1 := Visit(1, Credited), 2 := Visit(1, Credited)], [Credit(1, 7, 500), Credit(1, 7, 500)], [])

  const ALL_ASK := State(Db(map[1 := ROW], map[7 := 0]),
                         map[0 := Visit(1, Asking(ROW)), 1 := Visit(1, Asking(ROW)), 2 := Visit(1, Asking(ROW))], [], [])

  lemma AllRead(t: State)
    requires Reaches(ALL_ASK, t)
    ensures Reaches(Begin(Db(map[1 := ROW], map[7 := 0])), t)
  {
    var s0 := Begin(Db(map[1 := ROW], map[7 := 0]));
    var s1 := s0.(visits := map[0 := Visit(1, Asking(ROW))]);
    var s2 := s0.(visits := map[0 := Visit(1, Asking(ROW)), 1 := Visit(1, Asking(ROW))]);
    hide Reaches;
    StepsBack(s2, Read(2, 1), ALL_ASK, t);
    StepsBack(s1, Read(1, 1), s2, t);
    StepsBack(s0, Read(0, 1), s1, t);
  }

  lemma AllHear(t: State)
    requires Reaches(THREE_TICKS, t)
    ensures Reaches(ALL_ASK, t)
  {
    var s1 := ALL_ASK.(visits := map[0 := Visit(1, Dying(ROW)), 1 := Visit(1, Asking(ROW)), 2 := Visit(1, Asking(ROW))]);
    var s2 := ALL_ASK.(visits := map[0 := Visit(1, Dying(ROW)), 1 := Visit(1, Cleared), 2 := Visit(1, Asking(ROW))]);
    hide Reaches;
    StepsBack(s2, ReportPaid(2), THREE_TICKS, t);
    StepsBack(s1, ReportPaid(1), s2, t);
    StepsBack(ALL_ASK, ReportDead(0), s1, t);
  }

  lemma BothLook(t: State)
    requires Reaches(BOTH_LOOKED, t)
    ensures Reaches(THREE_TICKS, t)
  {
    var s := THREE_TICKS;
    var s1 := s.(visits := map[0 := Visit(1, Dying(ROW)), 1 := Visit(1, Settling(ROW)), 2 := Visit(1, Cleared)]);
    hide Reaches;
    StepsBack(s1, Snapshot(2), BOTH_LOOKED, t);
    StepsBack(s, Snapshot(1), s1, t);
  }

  lemma FirstPays(t: State)
    requires Reaches(PAID_ONCE, t)
    ensures Reaches(BOTH_LOOKED, t)
  {
    hide Reaches;
    StepsBack(BOTH_LOOKED, Settle(1, 10), PAID_ONCE, t);
  }

  const MARK_LOST := State(Db(map[1 := TopUp(Expired, 7, 500, None)], map[7 := 500]),
                           map[1 := Visit(1, Credited), 2 := Visit(1, Settling(ROW))], [Credit(1, 7, 500)], [])

  lemma SecondPaysToo()
    ensures Reaches(MARK_LOST, PAID_TWICE)
  {
    hide Reaches;
    ReachesItself(PAID_TWICE);
    StepsBack(MARK_LOST, Settle(2, 20), PAID_TWICE, PAID_TWICE);
  }

  lemma MarkIsLost(t: State)
    requires Reaches(MARK_LOST, t)
    ensures Reaches(PAID_ONCE, t)
  {
    hide Reaches;
    StepsBack(PAID_ONCE, SaveExpired(0), MARK_LOST, t);
  }

  /**
   * Without isolation and with a gateway that reports one order both ways: two settlements read the row as created, the first
   * credits it, the stale entity is saved as expired and takes the mark away, and the second credits it again.
   */
  lemma ContradictoryVerdictsPayTwice()
    ensures Reaches(Begin(Db(map[1 := ROW], map[7 := 0])), PAID_TWICE) && PAID_TWICE.db.balances[7] == 2 * ROW.amount
  {
    hide Reaches;
    SecondPaysToo();
    MarkIsLost(PAID_TWICE);
    FirstPays(PAID_TWICE);
    BothLook(PAID_TWICE);
    AllHear(PAID_TWICE);
    AllRead(PAID_TWICE);
  }
}
