// Traces of the limiters of src/app/flood-protection.ts.
module FloodWindows {
  import opened Common
  import opened FloodLimiter
  import opened WindowBudget

  // ---------------------------------------------------------------- update windows

  /** The windows behind a sequence of updates. */
  function WindowsAfter(windows: OrderedMap<FloodLimiter.Window>, calls: seq<Call>): OrderedMap<FloodLimiter.Window> {
    if calls == [] then windows
    else
      var n := |calls| - 1;
      Updated(WindowsAfter(windows, calls[..n]), calls[n].who, calls[n].now).0
  }

  /** Updates of the user in the interval that were let through. */
  function Admitted(windows: OrderedMap<FloodLimiter.Window>, calls: seq<Call>, user: UserId, f: Frame): nat {
    if calls == [] then 0
    else
      var n := |calls| - 1;
      var call := calls[n];
      Admitted(windows, calls[..n], user, f)
      + (if call.who == user && Inside(f, call.now) && Updated(WindowsAfter(windows, calls[..n]), call.who, call.now).1 then 1 else 0)
  }

  /** How often the user's entry was dropped in the interval. */
  function Evictions(windows: OrderedMap<FloodLimiter.Window>, calls: seq<Call>, user: UserId, f: Frame): nat {
    if calls == [] then 0
    else
      var n := |calls| - 1;
      Evictions(windows, calls[..n], user, f)
      + (if Inside(f, calls[n].now) && user in WindowsAfter(windows, calls[..n]).values && user !in WindowsAfter(windows, calls).values
         then 1 else 0)
  }

  /** The windows of a limiter at time `now`: bounded, and none starts in the future. */
  ghost predicate Sound(windows: OrderedMap<FloodLimiter.Window>, now: int) {
    Bounded(windows) && forall k :: k in windows.values ==> windows.values[k].start <= now
  }

  function Counter(windows: OrderedMap<FloodLimiter.Window>, user: UserId): Option<Count> {
    if user in windows.values then
      Some(Count(Min(windows.values[user].count, MAX_UPDATES_PER_WINDOW), windows.values[user].start))
    else None
  }

  lemma UpdateSound(windows: OrderedMap<FloodLimiter.Window>, call: Call, now: int)
    requires Sound(windows, now) && now <= call.now
    ensures Sound(Updated(windows, call.who, call.now).0, call.now)
  {
    var isNew := call.who !in windows.values || call.now - windows.values[call.who].start >= WINDOW_MS;
    var state := if isNew then FloodLimiter.Window(1, call.now)
                 else windows.values[call.who].(count := windows.values[call.who].count + 1);
    SetAndPrune(windows, call.who, state);
    CallsStayBounded(windows, OrderedMap([], map[]), call.who, call.now);
  }

  lemma OthersKeptOrDropped(windows: OrderedMap<FloodLimiter.Window>, call: Call, user: UserId)
    requires Bounded(windows) && user != call.who
    ensures var after := Updated(windows, call.who, call.now).0;
            user in after.values ==> user in windows.values && after.values[user] == windows.values[user]
  {
    var isNew := call.who !in windows.values || call.now - windows.values[call.who].start >= WINDOW_MS;
    var state := if isNew then FloodLimiter.Window(1, call.now)
                 else windows.values[call.who].(count := windows.values[call.who].count + 1);
    SetAndPrune(windows, call.who, state);
  }

  lemma OwnWindow(windows: OrderedMap<FloodLimiter.Window>, call: Call)
    requires Bounded(windows)
    ensures var (after, ok) := Updated(windows, call.who, call.now);
            var isNew := call.who !in windows.values || call.now - windows.values[call.who].start >= WINDOW_MS;
            && call.who in after.values
            && after.values[call.who] == (if isNew then FloodLimiter.Window(1, call.now)
                 else windows.values[call.who].(count := windows.values[call.who].count + 1))
            && (ok <==> isNew || windows.values[call.who].count < MAX_UPDATES_PER_WINDOW)
  {
    var isNew := call.who !in windows.values || call.now - windows.values[call.who].start >= WINDOW_MS;
    var state := if isNew then FloodLimiter.Window(1, call.now)
                 else windows.values[call.who].(count := windows.values[call.who].count + 1);
    SetAndPrune(windows, call.who, state);
  }

  /** The interval of one window length from `from` on. */
  function Minute(from: int): Frame {
    Frame(MAX_UPDATES_PER_WINDOW, WINDOW_MS, from)
  }

  lemma UpdateBudget(windows: OrderedMap<FloodLimiter.Window>, call: Call, user: UserId, f: Frame, c: nat, e: nat, now: int)
    requires Sound(windows, now) && now <= call.now && f == Minute(f.from)
    requires Budget(f, Counter(windows, user), c, e, now)
    ensures var (after, ok) := Updated(windows, call.who, call.now);
            Budget(f, Counter(after, user),
                   c + (if call.who == user && Inside(f, call.now) && ok then 1 else 0),
                   e + (if Inside(f, call.now) && user in windows.values && user !in after.values then 1 else 0), call.now)
  {
    Waits(f, Counter(windows, user), c, e, now, call.now);
    if call.who == user {
      OwnWindow(windows, call);
      hide Updated, Budget;
      if user !in windows.values || call.now - windows.values[user].start >= WINDOW_MS {
        Opens(f, Counter(windows, user), c, e, call.now);
      } else if windows.values[user].count < MAX_UPDATES_PER_WINDOW {
        Admits(f, Counter(windows, user).value, c, e, call.now);
      }
    } else {
      OthersKeptOrDropped(windows, call, user);
      hide Updated, Budget;
      if user in windows.values && user !in Updated(windows, call.who, call.now).0.values {
        Evicts(f, Counter(windows, user).value, c, e, call.now);
      }
    }
  }

  lemma Unfolds(windows: OrderedMap<FloodLimiter.Window>, calls: seq<Call>, user: UserId, f: Frame)
    requires calls != []
    ensures var n := |calls| - 1;
            var call, before := calls[n], WindowsAfter(windows, calls[..n]);
            var (after, ok) := Updated(before, call.who, call.now);
            && WindowsAfter(windows, calls) == after
            && Admitted(windows, calls, user, f) ==
               Admitted(windows, calls[..n], user, f) + (if call.who == user && Inside(f, call.now) && ok then 1 else 0)
            && Evictions(windows, calls, user, f) ==
               Evictions(windows, calls[..n], user, f)
               + (if Inside(f, call.now) && user in before.values && user !in after.values then 1 else 0)
  {
    hide Updated;
  }

  lemma {:induction false} TraceBudget(windows: OrderedMap<FloodLimiter.Window>, calls: seq<Call>, user: UserId, f: Frame, begin: int)
    requires Sound(windows, begin) && InOrder(begin, calls) && f == Minute(f.from)
    ensures Sound(WindowsAfter(windows, calls), Last(begin, calls))
    ensures Budget(f, Counter(WindowsAfter(windows, calls), user), Admitted(windows, calls, user, f), Evictions(windows, calls, user, f),
                   Last(begin, calls))
    decreases |calls|
  {
    hide Budget, Sound, Updated, Inside;
    if calls != [] {
      hide WindowsAfter, Admitted, Evictions, InOrder, Last, Counter;
      var n := |calls| - 1;
      InOrderPrefix(begin, calls);
      TraceBudget(windows, calls[..n], user, f, begin);
      Unfolds(windows, calls, user, f);
      UpdateSound(WindowsAfter(windows, calls[..n]), calls[n], Last(begin, calls[..n]));
      UpdateBudget(WindowsAfter(windows, calls[..n]), calls[n], user, f, Admitted(windows, calls[..n], user, f),
                   Evictions(windows, calls[..n], user, f), Last(begin, calls[..n]));
    } else {
      NothingYet(windows, user, f, begin);
    }
  }

  lemma NothingYet(windows: OrderedMap<FloodLimiter.Window>, user: UserId, f: Frame, now: int)
    requires Sound(windows, now) && f == Minute(f.from)
    ensures Budget(f, Counter(windows, user), 0, 0, now)
  {
  }

  /**
   * With a clock that does not go back: of one user's updates in any interval of 60 000 ms, ends included, at most 90
   * are let through, and 45 more for every time the user's entry was dropped in it.
   */
  lemma AtMostNinety(windows: OrderedMap<FloodLimiter.Window>, calls: seq<Call>, user: UserId, from: int, begin: int)
    requires Sound(windows, begin) && InOrder(begin, calls)
    ensures Admitted(windows, calls, user, Minute(from)) <= 90 + 45 * Evictions(windows, calls, user, Minute(from))
  {
    var f := Minute(from);
    TraceBudget(windows, calls, user, f, begin);
    Concludes(f, Counter(WindowsAfter(windows, calls), user), Admitted(windows, calls, user, f), Evictions(windows, calls, user, f),
              Last(begin, calls));
  }

  // ---------------------------------------------------------------- one window after the other

  /** Once the user has an entry, no call drops it. */
  predicate Survives(windows: OrderedMap<FloodLimiter.Window>, calls: seq<Call>, user: UserId) {
    calls == []
    || (Survives(windows, calls[..|calls| - 1], user)
        && (user in WindowsAfter(windows, calls[..|calls| - 1]).values ==> user in WindowsAfter(windows, calls).values))
  }

  /** The user's updates that were let through and counted in the window that began at `start`. */
  function AdmittedIn(windows: OrderedMap<FloodLimiter.Window>, calls: seq<Call>, user: UserId, start: int): nat {
    if calls == [] then 0
    else
      var n := |calls| - 1;
      var (after, ok) := Updated(WindowsAfter(windows, calls[..n]), calls[n].who, calls[n].now);
      AdmittedIn(windows, calls[..n], user, start)
      + (if calls[n].who == user && ok && user in after.values && after.values[user].start == start then 1 else 0)
  }

  /** A window of a user is the same as before or begins at least 60 000 ms after it, however the clock goes. */
  lemma {:induction false} WindowsAreApart(windows: OrderedMap<FloodLimiter.Window>, calls: seq<Call>, user: UserId)
    requires Bounded(windows) && user in windows.values && Survives(windows, calls, user)
    ensures var after := WindowsAfter(windows, calls);
            && Bounded(after) && user in after.values
            && (after.values[user].start == windows.values[user].start
                || after.values[user].start >= windows.values[user].start + WINDOW_MS)
    decreases |calls|
  {
    hide Updated;
    if calls != [] {
      var n := |calls| - 1;
      var before := WindowsAfter(windows, calls[..n]);
      WindowsAreApart(windows, calls[..n], user);
      CallsStayBounded(before, Nothing(), calls[n].who, calls[n].now);
      hide Bounded;
      if calls[n].who == user {
        OwnWindow(before, calls[n]);
      } else {
        OthersKeptOrDropped(before, calls[n], user);
      }
    }
  }

  /** What has been let through in the user's windows, up to the present one. */
  ghost predicate WindowsWithin(windows: OrderedMap<FloodLimiter.Window>, calls: seq<Call>, user: UserId) {
    var after := WindowsAfter(windows, calls);
    && (forall start :: AdmittedIn(windows, calls, user, start) <= MAX_UPDATES_PER_WINDOW)
    && (user !in after.values ==> forall start :: AdmittedIn(windows, calls, user, start) == 0)
    && (user in after.values ==>
          && AdmittedIn(windows, calls, user, after.values[user].start) <= after.values[user].count
          && forall start :: start > after.values[user].start ==> AdmittedIn(windows, calls, user, start) == 0)
  }

  lemma {:induction false} EachWindowAdmits(windows: OrderedMap<FloodLimiter.Window>, calls: seq<Call>, user: UserId)
    requires Bounded(windows) && Survives(windows, calls, user)
    ensures Bounded(WindowsAfter(windows, calls)) && WindowsWithin(windows, calls, user)
    decreases |calls|
  {
    hide Updated;
    if calls != [] {
      var n := |calls| - 1;
      var before, after := WindowsAfter(windows, calls[..n]), WindowsAfter(windows, calls);
      EachWindowAdmits(windows, calls[..n], user);
      CallsStayBounded(before, Nothing(), calls[n].who, calls[n].now);
      var ok := calls[n].who == user && Updated(before, calls[n].who, calls[n].now).1;
      forall start
        ensures AdmittedIn(windows, calls, user, start) ==
                AdmittedIn(windows, calls[..n], user, start)
                + if ok && user in after.values && after.values[user].start == start then 1 else 0
      {
      }
      if calls[n].who == user {
        OwnWindow(before, calls[n]);
      } else {
        OthersKeptOrDropped(before, calls[n], user);
      }
      hide AdmittedIn, WindowsAfter, Bounded;
    }
  }

  /** A user whose entry is not dropped: each of the user's windows lets at most 45 updates through. */
  lemma AtMostFortyFive(windows: OrderedMap<FloodLimiter.Window>, calls: seq<Call>, user: UserId, start: int)
    requires Bounded(windows) && Survives(windows, calls, user)
    ensures AdmittedIn(windows, calls, user, start) <= 45
  {
    EachWindowAdmits(windows, calls, user);
  }

  // ---------------------------------------------------------------- nobody is turned away without cause

  function Nothing<V>(): OrderedMap<V> {
    OrderedMap([], map[])
  }

  /** A window never counts more than the user sent since it began. */
  lemma {:induction false} CountIsSent(calls: seq<Call>, user: UserId, begin: int)
    requires InOrder(begin, calls)
    ensures var windows := WindowsAfter(Nothing(), calls);
            && Sound(windows, Last(begin, calls))
            && (user in windows.values ==> windows.values[user].count <= Sent(calls, user, windows.values[user].start))
    decreases |calls|
  {
    hide Updated;
    if calls != [] {
      var n := |calls| - 1;
      InOrderPrefix(begin, calls);
      CountIsSent(calls[..n], user, begin);
      var before := WindowsAfter(Nothing(), calls[..n]);
      UpdateSound(before, calls[n], Last(begin, calls[..n]));
      if calls[n].who == user {
        OwnWindow(before, calls[n]);
      } else {
        OthersKeptOrDropped(before, calls[n], user);
      }
    }
  }

  /** An update is turned away only when its user sent 45 others in the 60 000 ms before it. */
  lemma RefusedAfterFortyFive(calls: seq<Call>, call: Call, begin: int)
    requires InOrder(begin, calls) && Last(begin, calls) <= call.now
    requires !Updated(WindowsAfter(Nothing(), calls), call.who, call.now).1
    ensures Sent(calls, call.who, call.now - WINDOW_MS + 1) >= 45
  {
    CountIsSent(calls, call.who, begin);
    var windows := WindowsAfter(Nothing(), calls);
    OwnWindow(windows, call);
    hide Updated;
    SentEarlier(calls, call.who, windows.values[call.who].start, call.now - WINDOW_MS + 1);
  }

  // ---------------------------------------------------------------- start cooldown

  /** The cooldowns behind a sequence of /start calls. */
  function Later(cooldowns: OrderedMap<int>, calls: seq<Call>): OrderedMap<int>
    decreases |calls|
  {
    if calls == [] then cooldowns else Later(Started(cooldowns, calls[0].who, calls[0].now).0, calls[1..])
  }

  /** The user's entry survives every one of the calls. */
  predicate Kept(cooldowns: OrderedMap<int>, calls: seq<Call>, user: UserId)
    decreases |calls|
  {
    user in cooldowns.values
    && (calls == [] || Kept(Started(cooldowns, calls[0].who, calls[0].now).0, calls[1..], user))
  }

  lemma {:induction false} CooldownGrows(cooldowns: OrderedMap<int>, calls: seq<Call>, user: UserId)
    requires Bounded(cooldowns) && Kept(cooldowns, calls, user)
    ensures Bounded(Later(cooldowns, calls)) && user in Later(cooldowns, calls).values
    ensures Later(cooldowns, calls).values[user] >= cooldowns.values[user]
    decreases |calls|
  {
    if calls != [] {
      var call := calls[0];
      CallsStayBounded(OrderedMap([], map[]), cooldowns, call.who, call.now);
      SetAndPrune(cooldowns, call.who, call.now);
      CooldownGrows(Started(cooldowns, call.who, call.now).0, calls[1..], user);
    }
  }

  /**
   * Two accepted /start calls of one user, any calls in between: at least 12 000 ms apart, unless the user's entry was
   * dropped in between. This needs no assumption about the clock.
   */
  lemma StartsAreApart(cooldowns: OrderedMap<int>, first: Call, between: seq<Call>, second: Call)
    requires Bounded(cooldowns) && first.who == second.who
    requires Started(cooldowns, first.who, first.now).1
    requires Kept(Started(cooldowns, first.who, first.now).0, between, first.who)
    requires Started(Later(Started(cooldowns, first.who, first.now).0, between), second.who, second.now).1
    ensures second.now - first.now >= START_COOLDOWN_MS
  {
    CallsStayBounded(OrderedMap([], map[]), cooldowns, first.who, first.now);
    SetAndPrune(cooldowns, first.who, first.now);
    CooldownGrows(Started(cooldowns, first.who, first.now).0, between, first.who);
  }

  lemma {:induction false} LaterSnoc(cooldowns: OrderedMap<int>, calls: seq<Call>, call: Call)
    ensures Later(cooldowns, calls + [call]) == Started(Later(cooldowns, calls), call.who, call.now).0
    decreases |calls|
  {
    hide Started;
    if calls == [] {
      assert ([] + [call])[1..] == [];
    } else {
      assert (calls + [call])[1..] == calls[1..] + [call];
      LaterSnoc(Started(cooldowns, calls[0].who, calls[0].now).0, calls[1..], call);
    }
  }

  /** Call `j` of the sequence was accepted. */
  predicate AcceptedAt(calls: seq<Call>, j: nat)
    requires j < |calls|
  {
    Started(Later(Nothing(), calls[..j]), calls[j].who, calls[j].now).1
  }

  ghost predicate AcceptedSometime(calls: seq<Call>, user: UserId, at: int) {
    exists j :: 0 <= j < |calls| && calls[j].who == user && calls[j].now == at && AcceptedAt(calls, j)
  }

  lemma AcceptedStays(calls: seq<Call>, call: Call, user: UserId, at: int)
    requires AcceptedSometime(calls, user, at)
    ensures AcceptedSometime(calls + [call], user, at)
  {
    hide Started, Later;
    var j :| 0 <= j < |calls| && calls[j].who == user && calls[j].now == at && AcceptedAt(calls, j);
    assert (calls + [call])[..j] == calls[..j];
    assert AcceptedAt(calls + [call], j);
  }

  /** What a cooldown remembers is an accepted call. */
  lemma {:induction false} CooldownIsAccepted(calls: seq<Call>, user: UserId)
    ensures var cooldowns := Later(Nothing(), calls);
            && Bounded(cooldowns)
            && (user in cooldowns.values ==> AcceptedSometime(calls, user, cooldowns.values[user]))
    decreases |calls|
  {
    if calls != [] {
      var n := |calls| - 1;
      var call, before := calls[n], Later(Nothing(), calls[..n]);
      CooldownIsAccepted(calls[..n], user);
      assert calls == calls[..n] + [call];
      LaterSnoc(Nothing(), calls[..n], call);
      StartedEntry(before, call, user);
      assert AcceptedAt(calls, n) <==> Started(before, call.who, call.now).1;
      hide AcceptedSometime, AcceptedAt, Later, Bounded, Started;
      if user in before.values {
        AcceptedStays(calls[..n], call, user, before.values[user]);
      }
      if call.who == user && AcceptedAt(calls, n) {
        LastIsAccepted(calls);
      }
    }
  }

  /** An entry behind a call is from this call, which was accepted, or from before it. */
  lemma StartedEntry(cooldowns: OrderedMap<int>, call: Call, user: UserId)
    requires Bounded(cooldowns)
    ensures var (after, ok) := Started(cooldowns, call.who, call.now);
            && Bounded(after)
            && (user in after.values ==>
                  || (ok && user == call.who && after.values[user] == call.now)
                  || (user in cooldowns.values && after.values[user] == cooldowns.values[user]))
  {
    SetAndPrune(cooldowns, call.who, call.now);
    hide Bounded, Pruned;
  }

  lemma LastIsAccepted(calls: seq<Call>)
    requires calls != [] && AcceptedAt(calls, |calls| - 1)
    ensures AcceptedSometime(calls, calls[|calls| - 1].who, calls[|calls| - 1].now)
  {
    hide Started, Later;
  }

  /** A /start call is turned away only when one of the same user was accepted less than 12 000 ms before it. */
  lemma RefusedStartIsRecent(calls: seq<Call>, call: Call)
    requires call.now >= START_COOLDOWN_MS && !Started(Later(Nothing(), calls), call.who, call.now).1
    ensures exists at :: call.now - at < START_COOLDOWN_MS && AcceptedSometime(calls, call.who, at)
  {
    CooldownIsAccepted(calls, call.who);
    var at := Later(Nothing(), calls).values[call.who];
    assert AcceptedSometime(calls, call.who, at);
  }
}
