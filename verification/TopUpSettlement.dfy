// Overlapping ticks of the two pollers: src/api/payment.ts:256-388, src/domain/billing/PaymentStatusChecker.ts:54-79 and
// `checkPaymentStatus` in src/domain/billing/BillingService.ts.
module TopUpSettlement {
  import opened Common
  import opened TopUps

  type VisitId = nat

  /**
   * What a poller is about to do with one top-up. `Asking` and `Dying` hold the entity as it was read; saving it writes every
   * column that differs from the row, so the status and the mark. `Settling` holds what a transaction read first.
   */
  datatype Phase =
    | Asking(copy: TopUp)
    | Cleared
    | Dying(copy: TopUp)
    | Settling(snapshot: TopUp)
    | Credited

  datatype Visit = Visit(id: TopUpId, phase: Phase)

  datatype Entry = Credit(id: TopUpId, user: UserId, cents: int) | Moved(user: UserId, cents: int)

  /** `effects` are the top-ups whose side effects began. */
  datatype State = State(db: Db, visits: map<VisitId, Visit>, ledger: seq<Entry>, effects: seq<TopUpId>)

  /**
   * `Snapshot` and `Settle` are the two halves of a settlement whose first statement sees the row before its turn at the user's
   * lock; `SettleAlone` is one that runs in isolation. `Drop` is an order still open, an error or a crash.
   */
  datatype Step =
    | Create(id: TopUpId, owner: UserId, amount: nat)
    | Move(user: UserId, cents: int)
    | Read(v: VisitId, id: TopUpId)
    | ReportPaid(v: VisitId)
    | ReportDead(v: VisitId)
    | Drop(v: VisitId)
    | SaveExpired(v: VisitId)
    | Snapshot(v: VisitId)
    | Settle(v: VisitId, now: int)
    | SettleAlone(v: VisitId, now: int)
    | Effects(v: VisitId)

  predicate At(s: State, v: VisitId) {
    v in s.visits && s.visits[v].id in s.db.topUps
  }

  predicate Enabled(s: State, step: Step) {
    match step
    case Create(id, _, _) => id !in s.db.topUps
    case Move(user, _) => user in s.db.balances
    case Read(v, id) => v !in s.visits && id in s.db.topUps
    case ReportPaid(v) => At(s, v) && s.visits[v].phase.Asking?
    case ReportDead(v) => At(s, v) && s.visits[v].phase.Asking?
    case Drop(v) => v in s.visits
    case SaveExpired(v) => At(s, v) && s.visits[v].phase.Dying?
    case Snapshot(v) => At(s, v) && s.visits[v].phase.Cleared?
    case Settle(v, _) => At(s, v) && s.visits[v].phase.Settling?
    case SettleAlone(v, _) => At(s, v) && s.visits[v].phase.Cleared?
    case Effects(v) => At(s, v) && s.visits[v].phase.Credited?
  }

  function Into(s: State, v: VisitId, phase: Phase): State
    requires v in s.visits
  {
    s.(visits := s.visits[v := s.visits[v].(phase := phase)])
  }

  function Done(s: State, v: VisitId): State {
    s.(visits := s.visits - {v})
  }

  function SettleWith(s: State, v: VisitId, snapshot: TopUp, now: int): State
    requires v in s.visits && s.visits[v].id in s.db.topUps
  {
    var id := s.visits[v].id;
    var (db, outcome) := Settled(s.db, id, snapshot, now);
    if outcome == Newly then
      Into(s.(db := db, ledger := s.ledger + [Credit(id, snapshot.owner, snapshot.amount)]), v, Credited)
    else Done(s.(db := db), v)
  }

  function Next(s: State, step: Step): State
    requires Enabled(s, step)
  {
    match step
    case Create(id, owner, amount) => s.(db := s.db.(topUps := s.db.topUps[id := TopUp(Created, owner, amount, None)]))
    case Move(user, cents) =>
      s.(db := s.db.(balances := s.db.balances[user := s.db.balances[user] + cents]), ledger := s.ledger + [Moved(user, cents)])
    case Read(v, id) =>
      var t := s.db.topUps[id];
      (match t.status
       case Created => s.(visits := s.visits[v := Visit(id, Asking(t))])
       case Completed => s.(visits := s.visits[v := Visit(id, Cleared)])
       case Expired => s)
    case ReportPaid(v) => Into(s, v, Cleared)
    case ReportDead(v) => Into(s, v, Dying(s.visits[v].phase.copy))
    case Drop(v) => Done(s, v)
    case SaveExpired(v) =>
      var copy := s.visits[v].phase.copy;
      Done(s.(db := s.db.(topUps := s.db.topUps[s.visits[v].id := copy.(status := Expired)])), v)
    case Snapshot(v) => Into(s, v, Settling(s.db.topUps[s.visits[v].id]))
    case Settle(v, now) => SettleWith(s, v, s.visits[v].phase.snapshot, now)
    case SettleAlone(v, now) => SettleWith(s, v, s.db.topUps[s.visits[v].id], now)
    case Effects(v) => Done(s.(effects := s.effects + [s.visits[v].id]), v)
  }

  predicate CanRun(s: State, steps: seq<Step>)
    decreases |steps|
  {
    steps == [] || (Enabled(s, steps[0]) && CanRun(Next(s, steps[0]), steps[1..]))
  }

  function Run(s: State, steps: seq<Step>): State
    requires CanRun(s, steps)
    decreases |steps|
  {
    if steps == [] then s else Run(Next(s, steps[0]), steps[1..])
  }

  /** The gateway reports only the orders in `paid` as paid, and none of them as failed or expired. */
  predicate Honest(s: State, step: Step, paid: set<TopUpId>)
    requires Enabled(s, step)
  {
    match step
    case ReportPaid(v) => s.visits[v].id in paid
    case ReportDead(v) => s.visits[v].id !in paid
    case _ => true
  }

  predicate HonestRun(s: State, steps: seq<Step>, paid: set<TopUpId>)
    requires CanRun(s, steps)
    decreases |steps|
  {
    steps == [] || (Honest(s, steps[0], paid) && HonestRun(Next(s, steps[0]), steps[1..], paid))
  }

  /** Every settlement runs in isolation. */
  predicate Isolated(steps: seq<Step>) {
    forall i :: 0 <= i < |steps| ==> !steps[i].Snapshot? && !steps[i].Settle?
  }

  // ---------------------------------------------------------------- counting

  function Credits(ledger: seq<Entry>, id: TopUpId): nat {
    if ledger == [] then 0
    else (if ledger[0].Credit? && ledger[0].id == id then 1 else 0) + Credits(ledger[1..], id)
  }

  function Net(ledger: seq<Entry>, user: UserId): int {
    if ledger == [] then 0 else (if ledger[0].user == user then ledger[0].cents else 0) + Net(ledger[1..], user)
  }

  function Starts(effects: seq<TopUpId>, id: TopUpId): nat {
    if effects == [] then 0 else (if effects[0] == id then 1 else 0) + Starts(effects[1..], id)
  }

  lemma {:induction false} AfterEntry(ledger: seq<Entry>, e: Entry, id: TopUpId, user: UserId)
    ensures Credits(ledger + [e], id) == Credits(ledger, id) + if e.Credit? && e.id == id then 1 else 0
    ensures Net(ledger + [e], user) == Net(ledger, user) + if e.user == user then e.cents else 0
  {
    if ledger == [] {
      assert (ledger + [e])[1..] == [];
    } else {
      assert (ledger + [e])[1..] == ledger[1..] + [e];
      AfterEntry(ledger[1..], e, id, user);
    }
  }

  lemma {:induction false} AfterEffect(effects: seq<TopUpId>, k: TopUpId, id: TopUpId)
    ensures Starts(effects + [k], id) == Starts(effects, id) + if k == id then 1 else 0
  {
    if effects == [] {
      assert (effects + [k])[1..] == [];
    } else {
      assert (effects + [k])[1..] == effects[1..] + [k];
      AfterEffect(effects[1..], k, id);
    }
  }

  // ---------------------------------------------------------------- what an honest gateway gives

  /** A row of an order that `isPaid`, or is not. */
  predicate RowOk(t: TopUp, isPaid: bool) {
    && (t.creditedAt.Some? ==> t.status == Completed)
    && (t.status == Completed ==> isPaid)
    && (t.status == Expired ==> !isPaid)
  }

  /** A row moves from created to one of the two ends, and is never unmarked. Its owner and amount are fixed. */
  predicate Forward(a: TopUp, b: TopUp) {
    && (a.status == Created || b.status == a.status) && (a.creditedAt.Some? ==> b.creditedAt == a.creditedAt)
    && b.owner == a.owner && b.amount == a.amount
  }

  predicate VisitOk(t: TopUp, isPaid: bool, p: Phase) {
    match p
    case Asking(copy) => copy == TopUp(Created, t.owner, t.amount, None)
    case Cleared => isPaid
    case Dying(copy) => copy == TopUp(Created, t.owner, t.amount, None) && !isPaid
    case Settling(snapshot) => isPaid && Forward(snapshot, t) && RowOk(snapshot, isPaid)
    case Credited => t.creditedAt.Some?
  }

  ghost predicate RowsOk(s: State, paid: set<TopUpId>) {
    && (forall id :: id in s.db.topUps ==> RowOk(s.db.topUps[id], id in paid))
    && (forall v :: v in s.visits ==>
          s.visits[v].id in s.db.topUps
          && VisitOk(s.db.topUps[s.visits[v].id], s.visits[v].id in paid, s.visits[v].phase))
  }

  predicate AllForward(a: Db, b: Db) {
    && (forall id :: id in a.topUps ==> id in b.topUps && Forward(a.topUps[id], b.topUps[id]))
    && b.balances.Keys == a.balances.Keys
  }

  lemma ForwardKeepsVisit(t: TopUp, t': TopUp, isPaid: bool, p: Phase)
    requires VisitOk(t, isPaid, p) && Forward(t, t')
    ensures VisitOk(t', isPaid, p)
  {
  }

  lemma SettledForward(db: Db, id: TopUpId, snapshot: TopUp, now: int)
    requires id in db.topUps && VisitOk(db.topUps[id], true, Settling(snapshot)) && RowOk(db.topUps[id], true)
    ensures var after := Settled(db, id, snapshot, now).0;
            AllForward(db, after) && after.topUps.Keys == db.topUps.Keys && RowOk(after.topUps[id], true)
            && (forall k :: k in db.topUps && k != id ==> after.topUps[k] == db.topUps[k])
            && (snapshot.owner in db.balances ==> after.topUps[id].status == Completed && after.topUps[id].creditedAt.Some?)
  {
  }

  /** Rows moved forward, and of the visits only `v` changed. */
  lemma RowsStayOk(s: State, s': State, v: VisitId, paid: set<TopUpId>)
    requires RowsOk(s, paid) && AllForward(s.db, s'.db)
    requires forall id :: id in s'.db.topUps ==> RowOk(s'.db.topUps[id], id in paid)
    requires forall w :: w in s'.visits && w != v ==> w in s.visits && s'.visits[w] == s.visits[w]
    requires v in s'.visits ==>
      s'.visits[v].id in s'.db.topUps
      && VisitOk(s'.db.topUps[s'.visits[v].id], s'.visits[v].id in paid, s'.visits[v].phase)
    ensures RowsOk(s', paid)
  {
    hide VisitOk, RowOk, Forward;
    forall w | w in s'.visits
      ensures s'.visits[w].id in s'.db.topUps
      ensures VisitOk(s'.db.topUps[s'.visits[w].id], s'.visits[w].id in paid, s'.visits[w].phase)
    {
      if w != v {
        var id := s.visits[w].id;
        ForwardKeepsVisit(s.db.topUps[id], s'.db.topUps[id], id in paid, s.visits[w].phase);
      }
    }
  }

  lemma SettleKeepsRows(s: State, v: VisitId, snapshot: TopUp, now: int, paid: set<TopUpId>)
    requires RowsOk(s, paid) && v in s.visits && s.visits[v].id in s.db.topUps && s.visits[v].id in paid
    requires VisitOk(s.db.topUps[s.visits[v].id], true, Settling(snapshot))
    ensures RowsOk(SettleWith(s, v, snapshot, now), paid) && AllForward(s.db, SettleWith(s, v, snapshot, now).db)
  {
    var id := s.visits[v].id;
    SettledForward(s.db, id, snapshot, now);
    PaysWhenUnmarked(s.db, id, snapshot, now);
    hide Settled;
    RowsStayOk(s, SettleWith(s, v, snapshot, now), v, paid);
  }

  lemma SaveKeepsRows(s: State, v: VisitId, paid: set<TopUpId>)
    requires RowsOk(s, paid) && Enabled(s, SaveExpired(v))
    ensures RowsOk(Next(s, SaveExpired(v)), paid) && AllForward(s.db, Next(s, SaveExpired(v)).db)
  {
    RowsStayOk(s, Next(s, SaveExpired(v)), v, paid);
  }

  lemma CreateKeepsRows(s: State, id: TopUpId, owner: UserId, amount: nat, paid: set<TopUpId>)
    requires RowsOk(s, paid) && Enabled(s, Create(id, owner, amount))
    ensures RowsOk(Next(s, Create(id, owner, amount)), paid) && AllForward(s.db, Next(s, Create(id, owner, amount)).db)
  {
    var s' := Next(s, Create(id, owner, amount));
    forall k | k in s'.db.topUps ensures RowOk(s'.db.topUps[k], k in paid) {
      if k != id {
        assert s'.db.topUps[k] == s.db.topUps[k];
      }
    }
    if v :| v in s.visits {
      RowsStayOk(s, s', v, paid);
    }
  }

  /** Every step of the pollers keeps the rows in order and moves them forward only. */
  lemma StepKeepsRows(s: State, step: Step, paid: set<TopUpId>)
    requires RowsOk(s, paid) && Enabled(s, step) && Honest(s, step, paid)
    ensures RowsOk(Next(s, step), paid) && AllForward(s.db, Next(s, step).db)
  {
    match step
    case Create(id, owner, amount) => CreateKeepsRows(s, id, owner, amount, paid);
    case Move(_, _) =>
    case SaveExpired(v) => SaveKeepsRows(s, v, paid);
    case Settle(v, now) => SettleKeepsRows(s, v, s.visits[v].phase.snapshot, now, paid);
    case SettleAlone(v, now) => SettleKeepsRows(s, v, s.db.topUps[s.visits[v].id], now, paid);
    case _ => RowsStayOk(s, Next(s, step), step.v, paid);
  }

  // ---------------------------------------------------------------- at most one credit, at most one round of side effects

  predicate MarkedIn(db: Db, id: TopUpId) {
    id in db.topUps && db.topUps[id].creditedAt.Some?
  }

  /** The top-up was credited: in the run, or before it began with the database `initial`. */
  ghost predicate WasCredited(initial: Db, s: State, id: TopUpId) {
    Credits(s.ledger, id) > 0 || MarkedIn(initial, id)
  }

  /** Credits and side effects so far, whoever the gateway is. */
  ghost predicate CountsOk(initial: Db, s: State) {
    && (forall id :: Credits(s.ledger, id) <= (if MarkedIn(initial, id) then 0 else 1))
    && (forall id :: Starts(s.effects, id) <= Credits(s.ledger, id))
    && (forall v :: v in s.visits && s.visits[v].phase.Credited? ==>
          Credits(s.ledger, s.visits[v].id) == 1 && Starts(s.effects, s.visits[v].id) == 0)
    && (forall v, w ::
          v in s.visits && w in s.visits && s.visits[v].phase.Credited? && s.visits[w].phase.Credited?
          && s.visits[v].id == s.visits[w].id ==>
          v == w)
  }

  /** The step would pay for a second time. */
  ghost predicate PaysAgain(initial: Db, s: State, step: Step)
    requires Enabled(s, step)
  {
    Next(s, step).ledger != s.ledger && !step.Move? && WasCredited(initial, s, s.visits[step.v].id)
  }

  lemma CreditCounts(initial: Db, s: State, v: VisitId, snapshot: TopUp, now: int)
    requires CountsOk(initial, s) && At(s, v) && !s.visits[v].phase.Credited?
    requires Settled(s.db, s.visits[v].id, snapshot, now).1 == Newly ==> !WasCredited(initial, s, s.visits[v].id)
    ensures CountsOk(initial, SettleWith(s, v, snapshot, now))
  {
    var s' := SettleWith(s, v, snapshot, now);
    if Settled(s.db, s.visits[v].id, snapshot, now).1 == Newly {
      var e := Credit(s.visits[v].id, snapshot.owner, snapshot.amount);
      hide Settled;
      forall id ensures Credits(s'.ledger, id) == Credits(s.ledger, id) + if id == e.id then 1 else 0 {
        AfterEntry(s.ledger, e, id, 0);
      }
    }
  }

  lemma EffectCounts(initial: Db, s: State, v: VisitId)
    requires CountsOk(initial, s) && Enabled(s, Effects(v))
    ensures CountsOk(initial, Next(s, Effects(v)))
  {
    var s' := Next(s, Effects(v));
    forall id ensures Starts(s'.effects, id) == Starts(s.effects, id) + if s.visits[v].id == id then 1 else 0 {
      AfterEffect(s.effects, s.visits[v].id, id);
    }
  }

  lemma MoveCounts(initial: Db, s: State, user: UserId, cents: int)
    requires CountsOk(initial, s) && Enabled(s, Move(user, cents))
    ensures CountsOk(initial, Next(s, Move(user, cents)))
  {
    var s' := Next(s, Move(user, cents));
    forall id ensures Credits(s'.ledger, id) == Credits(s.ledger, id) {
      AfterEntry(s.ledger, Moved(user, cents), id, 0);
    }
  }

  lemma StepKeepsCounts(initial: Db, s: State, step: Step)
    requires CountsOk(initial, s) && Enabled(s, step) && !PaysAgain(initial, s, step)
    ensures CountsOk(initial, Next(s, step))
  {
    hide Settled, Credits, Starts, MarkedIn;
    match step
    case Move(user, cents) => MoveCounts(initial, s, user, cents);
    case Settle(v, now) => CreditCounts(initial, s, v, s.visits[v].phase.snapshot, now);
    case SettleAlone(v, now) => CreditCounts(initial, s, v, s.db.topUps[s.visits[v].id], now);
    case Effects(v) => EffectCounts(initial, s, v);
    case _ =>
  }

  // ---------------------------------------------------------------- what loses a mark, and what keeps a credit single

  /** A settlement that began with this row goes on to credit it, unless it finds it marked. */
  predicate CanBePaid(db: Db, snapshot: TopUp) {
    snapshot.status != Expired && snapshot.creditedAt.None? && snapshot.owner in db.balances
  }

  /** A settlement of the top-up has begun with such a row. */
  predicate WouldPay(s: State, w: VisitId, id: TopUpId) {
    w in s.visits && s.visits[w].id == id && s.visits[w].phase.Settling? && CanBePaid(s.db, s.visits[w].phase.snapshot)
  }

  /**
   * An entity that was read before the top-up was credited is saved over its mark, while another settlement has begun with the
   * row unmarked.
   */
  ghost predicate LosesMark(initial: Db, s: State, step: Step)
    requires Enabled(s, step)
  {
    && step.SaveExpired?
    && var id := s.visits[step.v].id;
    && WasCredited(initial, s, id) && MarkedIn(s.db, id) && s.visits[step.v].phase.copy.creditedAt.None?
    && exists w :: WouldPay(s, w, id)
  }

  ghost predicate NeverLosesMark(initial: Db, s: State, steps: seq<Step>)
    requires CanRun(s, steps)
    decreases |steps|
  {
    steps == [] || (!LosesMark(initial, s, steps[0]) && NeverLosesMark(initial, Next(s, steps[0]), steps[1..]))
  }

  /** Nobody will credit the top-up: its row is marked, or it expired behind the last settlement that would have paid. */
  ghost predicate Closed(s: State, id: TopUpId) {
    && id in s.db.topUps
    && (MarkedIn(s.db, id) || (s.db.topUps[id].status == Expired && forall w :: !WouldPay(s, w, id)))
  }

  /** What was credited is closed. */
  ghost predicate CreditedClosed(initial: Db, s: State) {
    forall id :: WasCredited(initial, s, id) ==> Closed(s, id)
  }

  lemma SettleKeepsClosed(initial: Db, s: State, v: VisitId, snapshot: TopUp, now: int)
    requires CreditedClosed(initial, s) && At(s, v)
    requires snapshot == s.db.topUps[s.visits[v].id] || s.visits[v].phase == Settling(snapshot)
    ensures CreditedClosed(initial, SettleWith(s, v, snapshot, now))
    ensures Settled(s.db, s.visits[v].id, snapshot, now).1 == Newly ==> !WasCredited(initial, s, s.visits[v].id)
  {
    var s' := SettleWith(s, v, snapshot, now);
    var k := s.visits[v].id;
    PaysWhenUnmarked(s.db, k, snapshot, now);
    SettlingLeavesRow(s.db, k, snapshot, now);
    hide Settled;
    assert s.visits[v].phase == Settling(snapshot) && CanBePaid(s.db, snapshot) ==> WouldPay(s, v, k);
    forall id | WasCredited(initial, s', id) ensures Closed(s', id) {
      assert forall w :: WouldPay(s', w, id) ==> WouldPay(s, w, id);
      if s'.ledger != s.ledger {
        AfterEntry(s.ledger, Credit(k, snapshot.owner, snapshot.amount), id, 0);
      }
      if WasCredited(initial, s, id) {
        assert Closed(s, id);
      } else {
        assert id == k && MarkedIn(s'.db, k);
      }
    }
  }

  /** A settlement that would not pay leaves the row; no settlement takes a mark away. */
  lemma SettlingLeavesRow(db: Db, id: TopUpId, snapshot: TopUp, now: int)
    requires id in db.topUps
    ensures var after := Settled(db, id, snapshot, now).0;
            && (db.topUps[id].creditedAt.Some? ==> after.topUps[id].creditedAt == db.topUps[id].creditedAt)
            && (!CanBePaid(db, snapshot) ==> after == db)
  {
  }

  lemma SaveKeepsClosed(initial: Db, s: State, v: VisitId)
    requires CreditedClosed(initial, s) && Enabled(s, SaveExpired(v)) && !LosesMark(initial, s, SaveExpired(v))
    ensures CreditedClosed(initial, Next(s, SaveExpired(v)))
  {
    var s' := Next(s, SaveExpired(v));
    forall id | WasCredited(initial, s', id) ensures Closed(s', id) {
      assert WasCredited(initial, s, id) && Closed(s, id);
      forall w ensures WouldPay(s', w, id) ==> WouldPay(s, w, id) {
      }
    }
  }

  lemma StepKeepsClosed(initial: Db, s: State, step: Step)
    requires CreditedClosed(initial, s) && Enabled(s, step) && !LosesMark(initial, s, step)
    ensures CreditedClosed(initial, Next(s, step)) && !PaysAgain(initial, s, step)
  {
    match step
    case Settle(v, now) => SettleKeepsClosed(initial, s, v, s.visits[v].phase.snapshot, now);
    case SettleAlone(v, now) => SettleKeepsClosed(initial, s, v, s.db.topUps[s.visits[v].id], now);
    case SaveExpired(v) => SaveKeepsClosed(initial, s, v);
    case _ => QuietKeepsClosed(initial, s, step);
  }

  lemma QuietKeepsClosed(initial: Db, s: State, step: Step)
    requires CreditedClosed(initial, s) && Enabled(s, step) && !step.Settle? && !step.SettleAlone? && !step.SaveExpired?
    ensures CreditedClosed(initial, Next(s, step)) && !PaysAgain(initial, s, step)
  {
    var s' := Next(s, step);
    forall id | WasCredited(initial, s', id) ensures Closed(s', id) {
      if step.Move? {
        AfterEntry(s.ledger, Moved(step.user, step.cents), id, 0);
      }
      assert WasCredited(initial, s, id) && Closed(s, id);
      forall w ensures WouldPay(s', w, id) ==> WouldPay(s, w, id) || (step.Snapshot? && step.v == w && s.db.topUps[id].creditedAt.None?) {
      }
    }
  }

  /**
   * Whatever the gateways report, and counting what was credited before: as long as no mark is lost while another settlement would
   * pay, nothing is credited or followed up twice.
   */
  lemma {:induction false} CreditedOnceUnlessMarkIsLost(initial: Db, s: State, steps: seq<Step>)
    requires CountsOk(initial, s) && CreditedClosed(initial, s) && CanRun(s, steps) && NeverLosesMark(initial, s, steps)
    ensures CountsOk(initial, Run(s, steps)) && CreditedClosed(initial, Run(s, steps))
    decreases |steps|
  {
    hide CountsOk, CreditedClosed, Enabled, Next, PaysAgain, LosesMark;
    if steps != [] {
      StepKeepsClosed(initial, s, steps[0]);
      StepKeepsCounts(initial, s, steps[0]);
      CreditedOnceUnlessMarkIsLost(initial, Next(s, steps[0]), steps[1..]);
    }
  }

  /** A mark that is lost while another settlement would pay can be money paid twice: by that settlement, as the next step. */
  lemma LostMarkPaysAgain(initial: Db, s: State, step: Step) returns (w: VisitId)
    requires CountsOk(initial, s) && Enabled(s, step) && LosesMark(initial, s, step)
    ensures forall now :: CanRun(Next(s, step), [Settle(w, now)])
                          && !CountsOk(initial, Run(Next(s, step), [Settle(w, now)]))
  {
    var id := s.visits[step.v].id;
    var a := Next(s, step);
    w :| WouldPay(s, w, id);
    assert WouldPay(a, w, id);
    forall now ensures CanRun(a, [Settle(w, now)]) && !CountsOk(initial, Run(a, [Settle(w, now)])) {
      SettlesAgain(initial, a, w, now);
    }
  }

  lemma SettlesAgain(initial: Db, a: State, w: VisitId, now: int)
    requires At(a, w) && WouldPay(a, w, a.visits[w].id) && !MarkedIn(a.db, a.visits[w].id) && WasCredited(initial, a, a.visits[w].id)
    ensures CanRun(a, [Settle(w, now)]) && !CountsOk(initial, Run(a, [Settle(w, now)]))
  {
    var t := a.visits[w].phase.snapshot;
    var b := Next(a, Settle(w, now));
    assert CanRun(b, []) && [Settle(w, now)][1..] == [];
    assert Run(a, [Settle(w, now)]) == b;
    PaysWhenUnmarked(a.db, a.visits[w].id, t, now);
    hide Settled;
    AfterEntry(a.ledger, Credit(a.visits[w].id, t.owner, t.amount), a.visits[w].id, 0);
  }

  // ---------------------------------------------------------------- conservation

  /** Balances are the initial ones plus what the ledger says. */
  ghost predicate Conserved(initial: Db, s: State) {
    && s.db.balances.Keys == initial.balances.Keys
    && forall u :: u in initial.balances ==> s.db.balances[u] == initial.balances[u] + Net(s.ledger, u)
  }

  lemma SettleConserves(initial: Db, s: State, v: VisitId, snapshot: TopUp, now: int)
    requires Conserved(initial, s) && At(s, v)
    ensures Conserved(initial, SettleWith(s, v, snapshot, now))
  {
    var s' := SettleWith(s, v, snapshot, now);
    PaysWhenUnmarked(s.db, s.visits[v].id, snapshot, now);
    hide Settled;
    forall u | u in initial.balances ensures s'.db.balances[u] == initial.balances[u] + Net(s'.ledger, u) {
      AfterEntry(s.ledger, Credit(s.visits[v].id, snapshot.owner, snapshot.amount), 0, u);
    }
  }

  lemma StepConserves(initial: Db, s: State, step: Step)
    requires Conserved(initial, s) && Enabled(s, step)
    ensures Conserved(initial, Next(s, step))
  {
    match step
    case Settle(v, now) => SettleConserves(initial, s, v, s.visits[v].phase.snapshot, now);
    case SettleAlone(v, now) => SettleConserves(initial, s, v, s.db.topUps[s.visits[v].id], now);
    case Move(user, cents) =>
      forall u | u in initial.balances ensures Net(Next(s, step).ledger, u) == Net(s.ledger, u) + if u == user then cents else 0 {
        AfterEntry(s.ledger, Moved(user, cents), 0, u);
      }
    case _ =>
  }

  // ---------------------------------------------------------------- credits and completed rows

  /** Rows that were marked since the beginning. */
  predicate Fresh(initial: Db, db: Db, id: TopUpId) {
    MarkedIn(db, id) && !MarkedIn(initial, id)
  }

  /** The ledger has one credit, of the row's amount and for its owner, for every row marked since the beginning. */
  ghost predicate Matched(initial: Db, s: State) {
    && (forall id :: Credits(s.ledger, id) == if Fresh(initial, s.db, id) then 1 else 0)
    && (forall e :: e in s.ledger && e.Credit? ==>
          e.id in s.db.topUps && e.user == s.db.topUps[e.id].owner && e.cents == s.db.topUps[e.id].amount)
    && (forall id :: id in s.db.topUps && s.db.topUps[id].status == Completed && s.db.topUps[id].creditedAt.None? ==>
          id in initial.topUps && initial.topUps[id].status == Completed && initial.topUps[id].creditedAt.None?)
  }

  lemma SettleMatches(initial: Db, s: State, v: VisitId, snapshot: TopUp, now: int, paid: set<TopUpId>)
    requires Matched(initial, s) && RowsOk(s, paid) && At(s, v) && s.visits[v].id in paid
    requires VisitOk(s.db.topUps[s.visits[v].id], true, Settling(snapshot)) && AllForward(initial, s.db)
    ensures Matched(initial, SettleWith(s, v, snapshot, now))
  {
    var s' := SettleWith(s, v, snapshot, now);
    var id := s.visits[v].id;
    var e := Credit(id, snapshot.owner, snapshot.amount);
    PaysWhenUnmarked(s.db, id, snapshot, now);
    SettledForward(s.db, id, snapshot, now);
    assert MarkedIn(initial, id) ==> MarkedIn(s.db, id);
    hide Settled, RowsOk, AllForward;
    assert s'.ledger == s.ledger || (s'.ledger == s.ledger + [e] && !MarkedIn(s.db, id) && MarkedIn(s'.db, id));
    assert s'.ledger == s.ledger ==> (MarkedIn(s'.db, id) <==> MarkedIn(s.db, id));
    assert s'.db.topUps[id].status == Completed && s'.db.topUps[id].creditedAt.None? ==> s'.db.topUps[id] == s.db.topUps[id];
    hide VisitOk, RowOk, Forward;
    StillMatched(initial, s, s', id, e);
  }

  /** At most one more credit, of a row that was not marked and now is. */
  lemma StillMatched(initial: Db, s: State, s': State, id: TopUpId, e: Entry)
    requires Matched(initial, s) && id in s.db.topUps && e.Credit? && e.id == id
    requires s'.ledger == s.ledger || (s'.ledger == s.ledger + [e] && !MarkedIn(s.db, id) && MarkedIn(s'.db, id) && !MarkedIn(initial, id))
    requires s'.ledger == s.ledger ==> (MarkedIn(s'.db, id) <==> MarkedIn(s.db, id))
    requires s'.db.topUps.Keys == s.db.topUps.Keys && forall k :: k in s.db.topUps && k != id ==> s'.db.topUps[k] == s.db.topUps[k]
    requires s'.db.topUps[id].owner == s.db.topUps[id].owner && s'.db.topUps[id].amount == s.db.topUps[id].amount
    requires e.user == s.db.topUps[id].owner && e.cents == s.db.topUps[id].amount
    requires var t := s'.db.topUps[id]; t.status == Completed && t.creditedAt.None? ==> t == s.db.topUps[id]
    ensures Matched(initial, s')
  {
    forall k ensures Credits(s'.ledger, k) == if Fresh(initial, s'.db, k) then 1 else 0 {
      AfterEntry(s.ledger, e, k, 0);
    }
    hide Credits, Fresh;
  }

  lemma SaveMatches(initial: Db, s: State, v: VisitId, paid: set<TopUpId>)
    requires Matched(initial, s) && RowsOk(s, paid) && Enabled(s, SaveExpired(v))
    ensures Matched(initial, Next(s, SaveExpired(v)))
    ensures !LosesMark(initial, s, SaveExpired(v))
  {
    var s' := Next(s, SaveExpired(v));
    var id := s.visits[v].id;
    assert VisitOk(s.db.topUps[id], id in paid, s.visits[v].phase) && RowOk(s.db.topUps[id], id in paid);
    hide RowsOk;
    assert forall k :: Fresh(initial, s'.db, k) <==> Fresh(initial, s.db, k);
  }

  lemma StepMatches(initial: Db, s: State, step: Step, paid: set<TopUpId>)
    requires Matched(initial, s) && RowsOk(s, paid) && Enabled(s, step) && Honest(s, step, paid)
    requires AllForward(initial, s.db)
    ensures Matched(initial, Next(s, step)) && !LosesMark(initial, s, step)
  {
    match step
    case Settle(v, now) => SettleMatches(initial, s, v, s.visits[v].phase.snapshot, now, paid);
    case SettleAlone(v, now) => SettleMatches(initial, s, v, s.db.topUps[s.visits[v].id], now, paid);
    case SaveExpired(v) => SaveMatches(initial, s, v, paid);
    case Move(user, cents) =>
      forall id ensures Credits(Next(s, step).ledger, id) == Credits(s.ledger, id) {
        AfterEntry(s.ledger, Moved(user, cents), id, 0);
      }
    case Create(id, _, _) =>
      assert forall k :: Fresh(initial, Next(s, step).db, k) <==> Fresh(initial, s.db, k);
    case _ =>
  }
}
