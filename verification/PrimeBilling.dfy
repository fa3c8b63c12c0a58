// Billing of the Prime subscription, `ensurePrimePaidAfterTrial` in src/index.ts:167-232. Money is in cents, time in ms.
module PrimeBilling {
  import opened Common

  type UserId = int
  type CallId = nat

  const MONTHLY_PRICE: int := 999
  const PERIOD_MS: int := 2_592_000_000
  const TRIAL_MS: int := 604_800_000

  datatype Account = Account(balance: int, trialUsed: bool, activeUntil: Option<int>)

  /** The body of the transaction for a call that read the clock at `now`. */
  function Billed(a: Account, now: int): Account {
    if !a.trialUsed then a
    else if a.activeUntil.Some? && a.activeUntil.value > now then a
    else if a.balance < MONTHLY_PRICE then a.(activeUntil := None)
    else a.(balance := a.balance - MONTHLY_PRICE, activeUntil := Some(now + PERIOD_MS))
  }

  predicate IsCharged(a: Account, now: int) {
    && a.trialUsed && a.balance >= MONTHLY_PRICE
    && (a.activeUntil.None? || a.activeUntil.value <= now)
  }

  /**
   * A call leaves a user who never had the trial exactly as it was. Behind one, a user who had it has a subscription exactly when it
   * was still running or could be paid for; one that was running is kept to the moment, one that was paid for lasts 30 days from the
   * clock of the call; and the price was taken exactly when it was not running and could be paid for. Nobody's trial is touched.
   */
  lemma BilledIsCurrent(a: Account, now: int)
    ensures var runs := a.activeUntil.Some? && a.activeUntil.value > now;
            var b := Billed(a, now);
            && b.trialUsed == a.trialUsed
            && (!a.trialUsed ==> b == a && !IsCharged(a, now))
            && (a.trialUsed ==>
                  && (b.activeUntil.Some? <==> runs || a.balance >= 999)
                  && (runs ==> b.activeUntil == a.activeUntil)
                  && (!runs && a.balance >= 999 ==> b.activeUntil == Some(now + 30 * 24 * 60 * 60 * 1000))
                  && (b.balance == a.balance - (if IsCharged(a, now) then 999 else 0))
                  && (IsCharged(a, now) <==> !runs && a.balance >= 999))
  {
  }

  // ---------------------------------------------------------------- one call that nothing interrupts

  class Billing {
    var locks: set<UserId>
    var accounts: map<UserId, Account>

    constructor (accounts: map<UserId, Account>)
      ensures this.accounts == accounts && locks == {}
    {
      this.accounts, locks := accounts, {};
    }

    /** `fails` is a transaction that throws. Whatever happens inside, the call leaves the lock as it found it. */
    method EnsurePaidAfterTrial(user: UserId, now: int, fails: bool) returns (changed: bool)
      modifies this
      ensures locks == old(locks)
      ensures accounts ==
        if user <= 0 || user in old(locks) || fails || user !in old(accounts) then old(accounts)
        else old(accounts)[user := Billed(old(accounts)[user], now)]
      ensures changed <==> accounts != old(accounts)
    {
      changed := false;
      if user <= 0 {
        return;
      }
      if user in locks {
        return;
      }
      locks := locks + {user};
      if !fails && user in accounts {
        var a := accounts[user];
        if a.trialUsed {
          var activeUntil := if a.activeUntil.Some? then a.activeUntil.value else now;
          if activeUntil <= now {
            if a.balance < MONTHLY_PRICE {
              if a.activeUntil.Some? {
                accounts := accounts[user := a.(activeUntil := None)];
                changed := true;
              }
            } else {
              accounts := accounts[user := a.(balance := a.balance - MONTHLY_PRICE, activeUntil := Some(now + PERIOD_MS))];
              changed := true;
            }
          }
        }
      }
      locks := locks - {user};
    }
  }

  // ---------------------------------------------------------------- calls that overlap

  /** A call that holds its user's lock: it has read the clock, and is `through` when its transaction is over. */
  datatype Visit = Visit(user: UserId, now: int, through: bool)

  datatype Entry = Charge(user: UserId, at: int) | Moved(user: UserId, cents: int) | Trial(user: UserId, until: int)

  datatype State = State(accounts: map<UserId, Account>, locks: set<UserId>, visits: map<CallId, Visit>, clock: int,
                         ledger: seq<Entry>)

  /** `Move` is any other payment or deposit that leaves the balance at zero or more. */
  datatype Step =
    | Enter(call: CallId, user: UserId)
    | Bill(call: CallId, fails: bool)
    | Leave(call: CallId)
    | Tick(ms: nat)
    | Move(user: UserId, cents: int)
    | StartTrial(user: UserId)

  predicate Enabled(s: State, step: Step) {
    match step
    case Enter(call, _) => call !in s.visits
    case Bill(call, _) => call in s.visits && !s.visits[call].through
    case Leave(call) => call in s.visits && s.visits[call].through
    case Tick(_) => true
    case Move(user, cents) => user in s.accounts && s.accounts[user].balance + cents >= 0
    case StartTrial(user) => user in s.accounts && !s.accounts[user].trialUsed
  }

  function Next(s: State, step: Step): State
    requires Enabled(s, step)
  {
    match step
    case Enter(call, user) =>
      if user <= 0 || user in s.locks then s
      else s.(locks := s.locks + {user}, visits := s.visits[call := Visit(user, s.clock, false)])
    case Bill(call, fails) =>
      var v := s.visits[call];
      var after := s.(visits := s.visits[call := v.(through := true)]);
      if fails || v.user !in s.accounts then after
      else
        after.(accounts := s.accounts[v.user := Billed(s.accounts[v.user], v.now)],
               ledger := if IsCharged(s.accounts[v.user], v.now) then s.ledger + [Charge(v.user, v.now)] else s.ledger)
    case Leave(call) => s.(locks := s.locks - {s.visits[call].user}, visits := s.visits - {call})
    case Tick(ms) => s.(clock := s.clock + ms)
    case Move(user, cents) =>
      s.(accounts := s.accounts[user := s.accounts[user].(balance := s.accounts[user].balance + cents)],
         ledger := s.ledger + [Moved(user, cents)])
    case StartTrial(user) =>
      s.(accounts := s.accounts[user := s.accounts[user].(trialUsed := true, activeUntil := Some(s.clock + TRIAL_MS))],
         ledger := s.ledger + [Trial(user, s.clock + TRIAL_MS)])
  }

  predicate CanRun(s: State, steps: seq<Step>)
    decreases |steps|
  {
    steps == [] || (Enabled(s, steps[0]) && CanRun(Next(s, steps[0]), steps[1..]))
  }

  function Run(s: State, steps: seq<Step>): State
    requires CanRun(s, steps)
    decreases |steps|
  {
    if steps == [] then s else Run(Next(s, steps[0]), steps[1..])
  }

  function Begin(accounts: map<UserId, Account>, clock: int): State {
    State(accounts, {}, map[], clock, [])
  }

  // ---------------------------------------------------------------- locks

  /** A lock is held exactly by the one call of its user that is inside. */
  ghost predicate LocksHeld(s: State) {
    && (forall k :: k in s.visits ==> s.visits[k].user in s.locks && s.visits[k].now <= s.clock)
    && (forall j, k :: j in s.visits && k in s.visits && s.visits[j].user == s.visits[k].user ==> j == k)
    && (forall u :: u in s.locks ==> exists k :: k in s.visits && s.visits[k].user == u)
  }

  lemma StepKeepsLocks(s: State, step: Step)
    requires LocksHeld(s) && Enabled(s, step)
    ensures LocksHeld(Next(s, step))
  {
    var s' := Next(s, step);
    if step.Enter? || step.Bill? || step.Leave? {
      forall u | u in s'.locks ensures exists k :: k in s'.visits && s'.visits[k].user == u {
        if u in s.locks {
          var k :| k in s.visits && s.visits[k].user == u;
          assert k in s'.visits && s'.visits[k].user == u;
        } else {
          assert step.Enter? && s'.visits[step.call].user == u;
        }
      }
    }
  }

  // ---------------------------------------------------------------- balance

  function Effect(e: Entry, user: UserId): int {
    if e.user != user then 0
    else match e case Charge(_, _) => -MONTHLY_PRICE case Moved(_, cents) => cents case Trial(_, _) => 0
  }

  function Net(ledger: seq<Entry>, user: UserId): int {
    if ledger == [] then 0 else Effect(ledger[0], user) + Net(ledger[1..], user)
  }

  /** Balances are the initial ones plus what the ledger says, and none is negative. */
  ghost predicate Balanced(initial: map<UserId, Account>, s: State) {
    && s.accounts.Keys == initial.Keys
    && forall u :: u in initial ==>
         s.accounts[u].balance == initial[u].balance + Net(s.ledger, u) && s.accounts[u].balance >= 0
  }

  lemma {:induction false} NetOfAppended(ledger: seq<Entry>, e: Entry, user: UserId)
    ensures Net(ledger + [e], user) == Net(ledger, user) + Effect(e, user)
  {
    if ledger == [] {
      assert (ledger + [e])[1..] == [];
    } else {
      assert (ledger + [e])[1..] == ledger[1..] + [e];
      NetOfAppended(ledger[1..], e, user);
    }
  }

  lemma StepKeepsBalance(initial: map<UserId, Account>, s: State, step: Step)
    requires Balanced(initial, s) && Enabled(s, step)
    ensures Balanced(initial, Next(s, step))
  {
    var s' := Next(s, step);
    if s'.ledger != s.ledger {
      var e := s'.ledger[|s.ledger|];
      assert s'.ledger == s.ledger + [e];
      forall u | u in initial ensures Net(s'.ledger, u) == Net(s.ledger, u) + Effect(e, u) {
        NetOfAppended(s.ledger, e, u);
      }
    }
  }

  // ---------------------------------------------------------------- periods

  /** No call of this user that is still to be billed, and none to come, reads a clock before `t`. */
  ghost predicate NotBefore(s: State, user: UserId, t: int) {
    && t <= s.clock
    && forall k :: k in s.visits && s.visits[k].user == user && !s.visits[k].through ==> t <= s.visits[k].now
  }

  /** What a charge at time `at` has paid for is still running, or is over for everyone who may bill the user. */
  ghost predicate Covered(s: State, user: UserId, at: int) {
    && user in s.accounts && s.accounts[user].trialUsed
    && match s.accounts[user].activeUntil
       case Some(until) => at + PERIOD_MS <= until
       case None => NotBefore(s, user, at + PERIOD_MS)
  }

  ghost predicate AllCovered(s: State) {
    forall i :: 0 <= i < |s.ledger| && s.ledger[i].Charge? ==> Covered(s, s.ledger[i].user, s.ledger[i].at)
  }

  ghost predicate OncePerPeriod(ledger: seq<Entry>) {
    forall i, j :: 0 <= i < j < |ledger| && ledger[i].Charge? && ledger[j].Charge? && ledger[i].user == ledger[j].user ==>
      ledger[j].at - ledger[i].at >= PERIOD_MS
  }

  lemma CoverLasts(s: State, step: Step, user: UserId, at: int)
    requires LocksHeld(s) && Enabled(s, step) && Covered(s, user, at)
    ensures Covered(Next(s, step), user, at)
  {
    var s' := Next(s, step);
    if step.Bill? && s.visits[step.call].user == user && !step.fails {
      var v := s.visits[step.call];
      assert forall k :: k in s.visits && s.visits[k].user == user ==> k == step.call;
      assert forall k :: k in s'.visits && s'.visits[k].user == user ==> s'.visits[k].through;
    } else if s.accounts[user].activeUntil.None? {
      hide LocksHeld;
      assert s'.accounts[user].activeUntil == None;
      forall k | k in s'.visits && s'.visits[k].user == user && !s'.visits[k].through
        ensures at + PERIOD_MS <= s'.visits[k].now
      {
        if k in s.visits {
          assert s'.visits[k] == s.visits[k];
        } else {
          assert step.Enter? && s'.visits[k].now == s.clock;
        }
      }
    }
  }

  /** A charge finds every earlier charge of its user used up. */
  lemma ChargeIsDue(s: State, call: CallId, at: int)
    requires Enabled(s, Bill(call, false)) && Covered(s, s.visits[call].user, at)
    requires IsCharged(s.accounts[s.visits[call].user], s.visits[call].now)
    ensures s.visits[call].now - at >= PERIOD_MS
  {
  }

  lemma ChargeIsCovered(s: State, call: CallId)
    requires Enabled(s, Bill(call, false)) && s.visits[call].user in s.accounts
    requires IsCharged(s.accounts[s.visits[call].user], s.visits[call].now)
    ensures Covered(Next(s, Bill(call, false)), s.visits[call].user, s.visits[call].now)
  {
  }

  lemma StepKeepsPeriods(s: State, step: Step)
    requires LocksHeld(s) && AllCovered(s) && OncePerPeriod(s.ledger) && Enabled(s, step)
    ensures AllCovered(Next(s, step)) && OncePerPeriod(Next(s, step).ledger)
  {
    var s' := Next(s, step);
    var n := |s.ledger|;
    assert s.ledger <= s'.ledger && |s'.ledger| <= n + 1;
    assert |s'.ledger| == n + 1 && s'.ledger[n].Charge? ==>
        && step.Bill? && !step.fails && step.call in s.visits
        && s'.ledger[n] == Charge(s.visits[step.call].user, s.visits[step.call].now)
        && s.visits[step.call].user in s.accounts
        && IsCharged(s.accounts[s.visits[step.call].user], s.visits[step.call].now);
    hide LocksHeld, Covered, Next, IsCharged;
    forall i | 0 <= i < |s'.ledger| && s'.ledger[i].Charge? ensures Covered(s', s'.ledger[i].user, s'.ledger[i].at) {
      if i < n {
        CoverLasts(s, step, s.ledger[i].user, s.ledger[i].at);
      } else {
        ChargeIsCovered(s, step.call);
      }
    }
    forall i, j | 0 <= i < j < |s'.ledger| && s'.ledger[i].Charge? && s'.ledger[j].Charge?
                  && s'.ledger[i].user == s'.ledger[j].user
      ensures s'.ledger[j].at - s'.ledger[i].at >= PERIOD_MS
    {
      if j == n {
        ChargeIsDue(s, step.call, s.ledger[i].at);
      }
    }
  }

  // ---------------------------------------------------------------- access

  /** Every end of a subscription is 30 days after a charge, seven days after a trial began, or was there to begin with. */
  ghost predicate Paid(initial: map<UserId, Account>, s: State) {
    && s.accounts.Keys == initial.Keys
    && forall u :: u in s.accounts && s.accounts[u].activeUntil.Some? ==>
         || s.accounts[u].activeUntil == initial[u].activeUntil
         || Charge(u, s.accounts[u].activeUntil.value - PERIOD_MS) in s.ledger
         || Trial(u, s.accounts[u].activeUntil.value) in s.ledger
  }

  lemma StepKeepsPaid(initial: map<UserId, Account>, s: State, step: Step)
    requires Paid(initial, s) && Enabled(s, step)
    ensures Paid(initial, Next(s, step))
  {
    var s' := Next(s, step);
    assert forall e :: e in s.ledger ==> e in s'.ledger;
    if s'.ledger != s.ledger {
      assert s'.ledger[|s.ledger|] in s'.ledger;
    }
  }

  // ---------------------------------------------------------------- the trial

  /** How many trials of the user began. */
  function Trials(ledger: seq<Entry>, user: UserId): nat {
    if ledger == [] then 0 else (if ledger[0].Trial? && ledger[0].user == user then 1 else 0) + Trials(ledger[1..], user)
  }

  lemma {:induction false} TrialsOfAppended(ledger: seq<Entry>, e: Entry, user: UserId)
    ensures Trials(ledger + [e], user) == Trials(ledger, user) + if e.Trial? && e.user == user then 1 else 0
  {
    if ledger == [] {
      assert (ledger + [e])[1..] == [];
    } else {
      assert (ledger + [e])[1..] == ledger[1..] + [e];
      TrialsOfAppended(ledger[1..], e, user);
    }
  }

  /** Nobody has a second trial, and a trial is used exactly when it was at the beginning or began since. */
  ghost predicate TrialsFit(initial: map<UserId, Account>, s: State) {
    && s.accounts.Keys == initial.Keys
    && forall u :: u in initial ==>
         (if s.accounts[u].trialUsed then 1 else 0) == (if initial[u].trialUsed then 1 else 0) + Trials(s.ledger, u)
  }

  lemma StepKeepsTrials(initial: map<UserId, Account>, s: State, step: Step)
    requires TrialsFit(initial, s) && Enabled(s, step)
    ensures TrialsFit(initial, Next(s, step))
  {
    var s' := Next(s, step);
    assert |s'.ledger| <= |s.ledger| + 1 && s.ledger <= s'.ledger;
    if s'.ledger != s.ledger {
      var e := s'.ledger[|s.ledger|];
      assert s'.ledger == s.ledger + [e];
      forall u | u in initial ensures Trials(s'.ledger, u) == Trials(s.ledger, u) + if e.Trial? && e.user == u then 1 else 0 {
        TrialsOfAppended(s.ledger, e, u);
      }
    }
  }

  /** A trial that begins lasts seven days and costs nothing. */
  lemma TrialIsAWeek(s: State, user: UserId)
    requires Enabled(s, StartTrial(user))
    ensures var a, b := s.accounts[user], Next(s, StartTrial(user)).accounts[user];
            b.trialUsed && b.balance == a.balance && b.activeUntil == Some(s.clock + 7 * 24 * 60 * 60 * 1000)
  {
  }

  // ---------------------------------------------------------------- every run

  ghost predicate Inv(initial: map<UserId, Account>, s: State) {
    LocksHeld(s) && Balanced(initial, s) && AllCovered(s) && OncePerPeriod(s.ledger) && Paid(initial, s) && TrialsFit(initial, s)
  }

  lemma {:induction false} RunKeepsInv(initial: map<UserId, Account>, s: State, steps: seq<Step>)
    requires Inv(initial, s) && CanRun(s, steps)
    ensures Inv(initial, Run(s, steps))
    decreases |steps|
  {
    hide LocksHeld, Balanced, AllCovered, OncePerPeriod, Paid, TrialsFit, Next, Enabled;
    if steps != [] {
      StepKeepsLocks(s, steps[0]);
      StepKeepsBalance(initial, s, steps[0]);
      StepKeepsPeriods(s, steps[0]);
      StepKeepsPaid(initial, s, steps[0]);
      StepKeepsTrials(initial, s, steps[0]);
      RunKeepsInv(initial, Next(s, steps[0]), steps[1..]);
    }
  }

  /**
   * However the calls overlap: one call per user holds the lock, no lock outlives its call, two charges of a user are 30
   * days apart by the clocks their calls read, balances are the initial ones plus what came in minus what was charged
   * and never negative, nobody has a subscription that was not paid for or given as the trial, and a user's trial is used if and
   * only if it was at the beginning or has begun since, which it does once at most.
   */
  lemma ChargedOncePerPeriod(accounts: map<UserId, Account>, clock: int, steps: seq<Step>)
    requires forall u :: u in accounts ==> accounts[u].balance >= 0
    requires CanRun(Begin(accounts, clock), steps)
    ensures var s := Run(Begin(accounts, clock), steps);
            LocksHeld(s) && OncePerPeriod(s.ledger) && Balanced(accounts, s) && Paid(accounts, s) && TrialsFit(accounts, s)
  {
    RunKeepsInv(accounts, Begin(accounts, clock), steps);
  }

  /** A call that is turned away at the door: no user, or one whose call is still inside. */
  lemma TurnedAway(s: State, call: CallId, user: UserId)
    requires call !in s.visits && (user <= 0 || user in s.locks)
    ensures Enabled(s, Enter(call, user)) && Next(s, Enter(call, user)) == s
  {
  }

  /** A call that nothing interrupts is the three steps in a row, whether its transaction fails or not. */
  lemma OneCallIsThreeSteps(s: State, call: CallId, user: UserId, fails: bool)
    requires LocksHeld(s) && call !in s.visits && user > 0 && user !in s.locks
    ensures var steps := [Enter(call, user), Bill(call, fails), Leave(call)];
            && CanRun(s, steps)
            && Run(s, steps).accounts
               == (if fails || user !in s.accounts then s.accounts else s.accounts[user := Billed(s.accounts[user], s.clock)])
            && Run(s, steps).ledger
               == s.ledger + (if !fails && user in s.accounts && IsCharged(s.accounts[user], s.clock) then [Charge(user, s.clock)] else [])
            && Run(s, steps).locks == s.locks && Run(s, steps).visits == s.visits && Run(s, steps).clock == s.clock
  {
    var a := Next(s, Enter(call, user));
    var b := Next(a, Bill(call, fails));
    var c := Next(b, Leave(call));
    assert c.locks == s.locks && c.visits == s.visits;
    var steps := [Enter(call, user), Bill(call, fails), Leave(call)];
    assert steps[1..] == [Bill(call, fails), Leave(call)] && steps[1..][1..] == [Leave(call)] && steps[1..][1..][1..] == [];
    assert CanRun(c, []) && CanRun(b, [Leave(call)]) && CanRun(a, steps[1..]);
    assert Run(b, [Leave(call)]) == c;
  }
}
