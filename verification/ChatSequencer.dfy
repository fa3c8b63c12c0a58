// The promise chain that runs one handler per chat at a time, src/app/flood-protection.ts:17-43.
module ChatSequencer {
  import opened Common

  type ChatKey = int

  datatype Phase = Waiting | Running | Done(threw: bool)

  /**
   * What one serialized update leaves in the promise graph. It awaits the tail of `prev`, or `Promise.resolve()` when it
   * has none; its own tail, `prev.then(() => gate)`, settles after the tail of `prev` has and its gate is open.
   */
  datatype Ticket = Ticket(chat: ChatKey, prev: Option<nat>, phase: Phase, gateOpen: bool, tailSettled: bool)

  /** Tickets in order of arrival. `chains` is `chatChains`: a promise in it is the tail of a ticket. */
  datatype State = State(tickets: seq<Ticket>, chains: map<ChatKey, nat>)

  datatype Step =
    | Arrive(chat: Option<ChatKey>, recovery: bool)
    | Resume(i: nat)
    | Finish(i: nat, threw: bool)
    | Settle(i: nat)

  predicate PrevSettled(s: State, i: nat)
    requires i < |s.tickets|
  {
    s.tickets[i].prev.None? || (s.tickets[i].prev.value < |s.tickets| && s.tickets[s.tickets[i].prev.value].tailSettled)
  }

  predicate Enabled(s: State, step: Step) {
    match step
    case Arrive(_, _) => true
    case Resume(i) => i < |s.tickets| && s.tickets[i].phase.Waiting? && PrevSettled(s, i)
    case Finish(i, _) => i < |s.tickets| && s.tickets[i].phase.Running?
    case Settle(i) => i < |s.tickets| && !s.tickets[i].tailSettled && s.tickets[i].gateOpen && PrevSettled(s, i)
  }

  function Next(s: State, step: Step): State
    requires Enabled(s, step)
  {
    match step
    case Arrive(chat, recovery) =>
      if recovery || chat.None? then s
      else
        var prev := if chat.value in s.chains then Some(s.chains[chat.value]) else None;
        State(s.tickets + [Ticket(chat.value, prev, Waiting, false, false)], s.chains[chat.value := |s.tickets|])
    case Resume(i) => s.(tickets := s.tickets[i := s.tickets[i].(phase := Running)])
    case Finish(i, threw) => s.(tickets := s.tickets[i := s.tickets[i].(phase := Done(threw), gateOpen := true)])
    case Settle(i) => s.(tickets := s.tickets[i := s.tickets[i].(tailSettled := true)])
  }

  const NOBODY := State([], map[])

  predicate CanRun(s: State, steps: seq<Step>)
    decreases |steps|
  {
    steps == [] || (Enabled(s, steps[0]) && CanRun(Next(s, steps[0]), steps[1..]))
  }

  function Run(s: State, steps: seq<Step>): State
    requires CanRun(s, steps)
    decreases |steps|
  {
    if steps == [] then s else Run(Next(s, steps[0]), steps[1..])
  }

  // ---------------------------------------------------------------- what every step keeps

  /** The map holds the last ticket of every chat that has one. */
  ghost predicate HoldsLast(s: State) {
    && (forall c :: c in s.chains ==> s.chains[c] < |s.tickets| && s.tickets[s.chains[c]].chat == c)
    && (forall i :: 0 <= i < |s.tickets| ==> s.tickets[i].chat in s.chains && i <= s.chains[s.tickets[i].chat])
  }

  /** A ticket waits for the last earlier ticket of its chat. */
  ghost predicate WaitsForLast(s: State) {
    && (forall i :: 0 <= i < |s.tickets| && s.tickets[i].prev.Some? ==>
          s.tickets[i].prev.value < i && s.tickets[s.tickets[i].prev.value].chat == s.tickets[i].chat)
    && (forall i, j :: 0 <= j < i < |s.tickets| && s.tickets[j].chat == s.tickets[i].chat ==>
          s.tickets[i].prev.Some? && j <= s.tickets[i].prev.value)
  }

  ghost predicate Linked(s: State) {
    HoldsLast(s) && WaitsForLast(s)
  }

  /** A gate is open when its handler is through; nothing runs or settles before the tail it waits for. */
  ghost predicate Gated(s: State) {
    forall i :: 0 <= i < |s.tickets| ==>
      && (s.tickets[i].gateOpen <==> s.tickets[i].phase.Done?)
      && (!s.tickets[i].phase.Waiting? ==> PrevSettled(s, i))
      && (s.tickets[i].tailSettled ==> s.tickets[i].gateOpen)
  }

  ghost predicate Inv(s: State) {
    Linked(s) && Gated(s)
  }

  /** A step other than an arrival: one ticket moves on, and no link changes. */
  predicate Moves(s: State, s': State) {
    && |s'.tickets| == |s.tickets| && s'.chains == s.chains
    && forall j :: 0 <= j < |s.tickets| ==>
         && s'.tickets[j].chat == s.tickets[j].chat && s'.tickets[j].prev == s.tickets[j].prev
         && (s.tickets[j].tailSettled ==> s'.tickets[j].tailSettled)
  }

  lemma MovesKeepLinks(s: State, s': State)
    requires Linked(s) && Moves(s, s')
    ensures Linked(s')
  {
    assert HoldsLast(s') by { hide WaitsForLast; }
    assert WaitsForLast(s') by { hide HoldsLast; }
  }

  lemma MovesKeepGates(s: State, s': State, i: nat)
    requires Gated(s) && Moves(s, s') && i < |s.tickets|
    requires forall j :: 0 <= j < |s.tickets| && j != i ==> s'.tickets[j] == s.tickets[j]
    requires s'.tickets[i].gateOpen <==> s'.tickets[i].phase.Done?
    requires !s'.tickets[i].phase.Waiting? ==> PrevSettled(s, i)
    requires s'.tickets[i].tailSettled ==> s'.tickets[i].gateOpen
    ensures Gated(s')
  {
    forall j | 0 <= j < |s.tickets| && PrevSettled(s, j) ensures PrevSettled(s', j) {
    }
  }

  lemma StepKeepsInv(s: State, step: Step)
    requires Inv(s) && Enabled(s, step)
    ensures Inv(Next(s, step))
  {
    if step.Arrive? {
      hide Linked, Gated;
      if !step.recovery && step.chat.Some? {
        ArriveKeepsInv(s, step.chat.value);
      }
    } else {
      var s' := Next(s, step);
      assert Moves(s, s');
      assert s'.tickets[step.i].gateOpen <==> s'.tickets[step.i].phase.Done?;
      assert s'.tickets[step.i].tailSettled ==> s'.tickets[step.i].gateOpen;
      hide Linked, Moves;
      MovesKeepLinks(s, s');
      MovesKeepGates(s, s', step.i);
    }
  }

  lemma ArriveKeepsInv(s: State, chat: ChatKey)
    requires Inv(s)
    ensures Inv(Next(s, Arrive(Some(chat), false)))
  {
    var s' := Next(s, Arrive(Some(chat), false));
    var n := |s.tickets|;
    assert s'.tickets[n].prev == if chat in s.chains then Some(s.chains[chat]) else None;
    assert forall j :: 0 <= j < n ==> s'.tickets[j] == s.tickets[j];
    assert Arrives(s, s', chat);
    hide HoldsLast, WaitsForLast, Gated, Next, Arrives;
    ArriveKeepsGates(s, s');
    ArriveKeepsMap(s, s', chat);
    ArriveKeepsWaiting(s, s', chat);
  }

  lemma ArriveKeepsGates(s: State, s': State)
    requires Gated(s) && |s'.tickets| == |s.tickets| + 1
    requires forall j :: 0 <= j < |s.tickets| ==> s'.tickets[j] == s.tickets[j]
    requires var t := s'.tickets[|s.tickets|]; t.phase.Waiting? && !t.gateOpen && !t.tailSettled
    ensures Gated(s')
  {
    forall i | 0 <= i < |s.tickets| && PrevSettled(s, i) ensures PrevSettled(s', i) {
    }
  }

  predicate Arrives(s: State, s': State, chat: ChatKey) {
    && |s'.tickets| == |s.tickets| + 1
    && (forall j :: 0 <= j < |s.tickets| ==> s'.tickets[j] == s.tickets[j])
    && s'.tickets[|s.tickets|].chat == chat && s'.chains == s.chains[chat := |s.tickets|]
    && s'.tickets[|s.tickets|].prev == if chat in s.chains then Some(s.chains[chat]) else None
  }

  lemma ArriveKeepsMap(s: State, s': State, chat: ChatKey)
    requires HoldsLast(s) && Arrives(s, s', chat)
    ensures HoldsLast(s')
  {
    var n := |s.tickets|;
    forall c | c in s'.chains ensures s'.chains[c] <= n && s'.tickets[s'.chains[c]].chat == c {
      assert c != chat ==> s'.chains[c] == s.chains[c];
    }
    forall i | 0 <= i <= n ensures s'.tickets[i].chat in s'.chains && i <= s'.chains[s'.tickets[i].chat] {
      if i < n {
        assert s'.tickets[i] == s.tickets[i];
      }
    }
  }

  lemma NewTicketWaitsForLast(s: State, s': State, chat: ChatKey, j: nat)
    requires HoldsLast(s) && Arrives(s, s', chat) && j < |s.tickets| && s.tickets[j].chat == chat
    ensures s'.tickets[|s.tickets|].prev.Some? && j <= s'.tickets[|s.tickets|].prev.value
  {
  }

  lemma ArriveKeepsWaiting(s: State, s': State, chat: ChatKey)
    requires HoldsLast(s) && WaitsForLast(s) && Arrives(s, s', chat)
    ensures WaitsForLast(s')
  {
    var n := |s.tickets|;
    forall j | 0 <= j < n && s.tickets[j].chat == chat
      ensures s'.tickets[n].prev.Some? && j <= s'.tickets[n].prev.value
    {
      NewTicketWaitsForLast(s, s', chat, j);
    }
    assert s'.tickets[n].prev.Some? ==>
        s'.tickets[n].prev.value < n && s'.tickets[s'.tickets[n].prev.value].chat == chat;
    hide HoldsLast;
    forall i, j | 0 <= j < i <= n && s'.tickets[j].chat == s'.tickets[i].chat
      ensures s'.tickets[i].prev.Some? && j <= s'.tickets[i].prev.value
    {
      assert s'.tickets[j] == s.tickets[j];
      if i < n { assert s'.tickets[i] == s.tickets[i]; }
    }
    forall i | 0 <= i <= n && s'.tickets[i].prev.Some?
      ensures s'.tickets[i].prev.value < i && s'.tickets[s'.tickets[i].prev.value].chat == s'.tickets[i].chat
    {
      if i < n { assert s'.tickets[i] == s.tickets[i]; }
    }
  }

  // ---------------------------------------------------------------- mutual exclusion and order

  /** A settled tail speaks for its ticket and for every earlier ticket of the chat. */
  lemma {:induction false} SettledMeansDone(s: State, i: nat, j: nat)
    requires Inv(s) && j <= i < |s.tickets| && s.tickets[j].chat == s.tickets[i].chat && s.tickets[i].tailSettled
    ensures s.tickets[j].phase.Done?
  {
    if j < i {
      assert PrevSettled(s, i);
      SettledMeansDone(s, s.tickets[i].prev.value, j);
    }
  }

  /** A handler does not begin before all earlier ones of its chat are through: one at a time, in order of arrival. */
  lemma EarlierOnesAreThrough(s: State, i: nat, j: nat)
    requires Inv(s) && j < i < |s.tickets| && s.tickets[j].chat == s.tickets[i].chat
    requires !s.tickets[i].phase.Waiting? || PrevSettled(s, i)
    ensures s.tickets[j].phase.Done?
  {
    assert PrevSettled(s, i);
    SettledMeansDone(s, s.tickets[i].prev.value, j);
  }

  // ---------------------------------------------------------------- refinement to a mutex with a queue

  /** The lock a chat should have: its holder, and who waits for it, first in first out. */
  datatype Mutex = Mutex(holder: Option<nat>, queue: seq<nat>)

  datatype Event = Queued(id: nat) | Granted(id: nat) | Released(id: nat) | Idle

  predicate MutexStep(m: Mutex, e: Event, m': Mutex) {
    match e
    case Queued(id) => m' == m.(queue := m.queue + [id])
    case Granted(id) => m.holder.None? && m.queue != [] && m.queue[0] == id && m' == Mutex(Some(id), m.queue[1..])
    case Released(id) => m.holder == Some(id) && m' == m.(holder := None)
    case Idle => m' == m
  }

  function Queue(tickets: seq<Ticket>, chat: ChatKey): seq<nat> {
    if tickets == [] then []
    else
      var n := |tickets| - 1;
      Queue(tickets[..n], chat) + if tickets[n].chat == chat && tickets[n].phase.Waiting? then [n] else []
  }

  function Holder(tickets: seq<Ticket>, chat: ChatKey): Option<nat> {
    if tickets == [] then None
    else
      var n := |tickets| - 1;
      if tickets[n].chat == chat && tickets[n].phase.Running? then Some(n) else Holder(tickets[..n], chat)
  }

  function View(s: State, chat: ChatKey): Mutex {
    Mutex(Holder(s.tickets, chat), Queue(s.tickets, chat))
  }

  /** What a step is to the lock of a chat. */
  function EventOf(s: State, step: Step, chat: ChatKey): Event
    requires Enabled(s, step)
  {
    match step
    case Arrive(c, recovery) => if !recovery && c == Some(chat) then Queued(|s.tickets|) else Idle
    case Resume(i) => if s.tickets[i].chat == chat then Granted(i) else Idle
    case Finish(i, _) => if s.tickets[i].chat == chat then Released(i) else Idle
    case Settle(_) => Idle
  }

  lemma {:induction false} SameQueue(a: seq<Ticket>, b: seq<Ticket>, chat: ChatKey)
    requires |a| == |b|
    requires forall j :: 0 <= j < |a| ==>
      ((a[j].chat == chat && a[j].phase.Waiting?) <==> (b[j].chat == chat && b[j].phase.Waiting?))
    ensures Queue(a, chat) == Queue(b, chat)
    decreases |a|
  {
    if a != [] {
      SameQueue(a[..|a| - 1], b[..|b| - 1], chat);
    }
  }

  lemma {:induction false} SameHolder(a: seq<Ticket>, b: seq<Ticket>, chat: ChatKey)
    requires |a| == |b|
    requires forall j :: 0 <= j < |a| ==>
      ((a[j].chat == chat && a[j].phase.Running?) <==> (b[j].chat == chat && b[j].phase.Running?))
    ensures Holder(a, chat) == Holder(b, chat)
    decreases |a|
  {
    if a != [] {
      SameHolder(a[..|a| - 1], b[..|b| - 1], chat);
    }
  }

  lemma {:induction false} NobodyWaits(tickets: seq<Ticket>, chat: ChatKey)
    requires forall j :: 0 <= j < |tickets| && tickets[j].chat == chat ==> !tickets[j].phase.Waiting?
    ensures Queue(tickets, chat) == []
    decreases |tickets|
  {
    if tickets != [] {
      NobodyWaits(tickets[..|tickets| - 1], chat);
    }
  }

  lemma {:induction false} FirstWaits(tickets: seq<Ticket>, i: nat, t: Ticket)
    requires i < |tickets| && tickets[i].phase.Waiting? && t.chat == tickets[i].chat && !t.phase.Waiting?
    requires forall j :: 0 <= j < i && tickets[j].chat == t.chat ==> !tickets[j].phase.Waiting?
    ensures Queue(tickets, t.chat) == [i] + Queue(tickets[i := t], t.chat)
    decreases |tickets|
  {
    var n := |tickets| - 1;
    if i < n {
      assert tickets[i := t][..n] == tickets[..n][i := t];
      FirstWaits(tickets[..n], i, t);
    } else {
      assert tickets[i := t][..n] == tickets[..n];
      NobodyWaits(tickets[..n], t.chat);
    }
  }

  lemma {:induction false} NobodyHolds(tickets: seq<Ticket>, chat: ChatKey)
    requires forall j :: 0 <= j < |tickets| && tickets[j].chat == chat ==> !tickets[j].phase.Running?
    ensures Holder(tickets, chat) == None
    decreases |tickets|
  {
    if tickets != [] {
      NobodyHolds(tickets[..|tickets| - 1], chat);
    }
  }

  lemma {:induction false} OnlyHolder(tickets: seq<Ticket>, i: nat)
    requires i < |tickets| && tickets[i].phase.Running?
    requires forall j :: i < j < |tickets| && tickets[j].chat == tickets[i].chat ==> !tickets[j].phase.Running?
    ensures Holder(tickets, tickets[i].chat) == Some(i)
    decreases |tickets|
  {
    var n := |tickets| - 1;
    if i < n {
      OnlyHolder(tickets[..n], i);
    }
  }

  lemma ResumeGrants(s: State, i: nat)
    requires Inv(s) && Enabled(s, Resume(i))
    ensures MutexStep(View(s, s.tickets[i].chat), Granted(i), View(Next(s, Resume(i)), s.tickets[i].chat))
  {
    hide Linked, Gated;
    var c, s' := s.tickets[i].chat, Next(s, Resume(i));
    forall j | 0 <= j < |s.tickets| && s.tickets[j].chat == c
      ensures j < i ==> s.tickets[j].phase.Done?
      ensures j != i ==> !s.tickets[j].phase.Running?
    {
      if j < i { EarlierOnesAreThrough(s, i, j); }
      if i < j && !s.tickets[j].phase.Waiting? { EarlierOnesAreThrough(s, j, i); }
    }
    FirstWaits(s.tickets, i, s'.tickets[i]);
    NobodyHolds(s.tickets, c);
    OnlyHolder(s'.tickets, i);
  }

  lemma FinishReleases(s: State, i: nat, threw: bool)
    requires Inv(s) && Enabled(s, Finish(i, threw))
    ensures MutexStep(View(s, s.tickets[i].chat), Released(i), View(Next(s, Finish(i, threw)), s.tickets[i].chat))
  {
    hide Linked, Gated;
    var c, s' := s.tickets[i].chat, Next(s, Finish(i, threw));
    forall j | 0 <= j < |s.tickets| && s.tickets[j].chat == c ensures j != i ==> !s.tickets[j].phase.Running? {
      if j < i { EarlierOnesAreThrough(s, i, j); }
      if i < j && !s.tickets[j].phase.Waiting? { EarlierOnesAreThrough(s, j, i); }
    }
    SameQueue(s.tickets, s'.tickets, c);
    OnlyHolder(s.tickets, i);
    NobodyHolds(s'.tickets, c);
  }

  /**
   * The chain is a first-in-first-out mutex for every chat: each step is one step of the chat's lock, or none. A step that
   * belongs to another chat, a recovery command, an update without a chat or a promise that settles is none.
   */
  lemma RefinesMutex(s: State, step: Step, chat: ChatKey)
    requires Inv(s) && Enabled(s, step)
    ensures MutexStep(View(s, chat), EventOf(s, step, chat), View(Next(s, step), chat))
  {
    hide Linked, Gated;
    var s' := Next(s, step);
    if step.Arrive? {
      if !step.recovery && step.chat.Some? {
        assert s'.tickets[..|s.tickets|] == s.tickets;
      }
    } else if step.Resume? && s.tickets[step.i].chat == chat {
      ResumeGrants(s, step.i);
    } else if step.Finish? && s.tickets[step.i].chat == chat {
      FinishReleases(s, step.i, step.threw);
    } else {
      SameQueue(s.tickets, s'.tickets, chat);
      SameHolder(s.tickets, s'.tickets, chat);
    }
  }

  /** Of two handlers of a chat, the later one begins after the earlier one is through. */
  ghost predicate OneAtATime(s: State) {
    forall i, j :: 0 <= j < i < |s.tickets| && s.tickets[j].chat == s.tickets[i].chat && !s.tickets[i].phase.Waiting? ==>
      s.tickets[j].phase.Done?
  }

  lemma InvMeansOneAtATime(s: State)
    requires Inv(s)
    ensures OneAtATime(s)
  {
    forall i, j | 0 <= j < i < |s.tickets| && s.tickets[j].chat == s.tickets[i].chat && !s.tickets[i].phase.Waiting?
      ensures s.tickets[j].phase.Done?
    {
      EarlierOnesAreThrough(s, i, j);
    }
  }

  /** In every state of every run that begins with no promise at all. */
  lemma EveryRunIsOneAtATime(steps: seq<Step>)
    requires CanRun(NOBODY, steps)
    ensures OneAtATime(Run(NOBODY, steps)) && Inv(Run(NOBODY, steps))
  {
    RunKeepsInv(NOBODY, steps);
    InvMeansOneAtATime(Run(NOBODY, steps));
  }

  lemma {:induction false} RunKeepsInv(s: State, steps: seq<Step>)
    requires Inv(s) && CanRun(s, steps)
    ensures Inv(Run(s, steps))
    decreases |steps|
  {
    if steps != [] {
      StepKeepsInv(s, steps[0]);
      RunKeepsInv(Next(s, steps[0]), steps[1..]);
    }
  }

  // ---------------------------------------------------------------- nobody is left behind

  /** Whether a handler threw makes no difference to what can happen next. */
  lemma ThrowingMakesNoDifference(s: State, i: nat, step: Step)
    requires Enabled(s, Finish(i, true))
    ensures Enabled(Next(s, Finish(i, true)), step) <==> Enabled(Next(s, Finish(i, false)), step)
  {
    var a, b := Next(s, Finish(i, true)), Next(s, Finish(i, false));
    assert forall j :: 0 <= j < |s.tickets| ==> a.tickets[j].(phase := Waiting) == b.tickets[j].(phase := Waiting);
  }

  /** Steps a ticket still has to take. */
  function WorkOf(t: Ticket): nat {
    (match t.phase case Waiting => 2 case Running => 1 case Done(_) => 0) + if t.tailSettled then 0 else 1
  }

  function Work(tickets: seq<Ticket>, chat: ChatKey): nat {
    if tickets == [] then 0
    else
      var n := |tickets| - 1;
      Work(tickets[..n], chat) + if tickets[n].chat == chat then WorkOf(tickets[n]) else 0
  }

  /** A step of one of the chat's own tickets. */
  predicate Serves(s: State, step: Step, chat: ChatKey) {
    !step.Arrive? && step.i < |s.tickets| && s.tickets[step.i].chat == chat
  }

  lemma {:induction false} WorkAfterUpdate(tickets: seq<Ticket>, i: nat, t: Ticket, chat: ChatKey)
    requires i < |tickets| && t.chat == tickets[i].chat
    ensures Work(tickets[i := t], chat) ==
            Work(tickets, chat) + if t.chat == chat then WorkOf(t) - WorkOf(tickets[i]) else 0
    decreases |tickets|
  {
    var n := |tickets| - 1;
    if i < n {
      assert tickets[i := t][..n] == tickets[..n][i := t];
      WorkAfterUpdate(tickets[..n], i, t, chat);
    } else {
      assert tickets[i := t][..n] == tickets[..n];
    }
  }

  /** A chat's own steps use up its work one by one, an arrival adds three, and nothing another chat does matters. */
  lemma WorkOfStep(s: State, step: Step, chat: ChatKey)
    requires Enabled(s, step)
    ensures Work(Next(s, step).tickets, chat) ==
            Work(s.tickets, chat)
            + (if Serves(s, step, chat) then -1 else if EventOf(s, step, chat).Queued? then 3 else 0)
  {
    if step.Arrive? {
      if !step.recovery && step.chat.Some? {
        assert Next(s, step).tickets[..|s.tickets|] == s.tickets;
      }
    } else {
      hide Work;
      WorkAfterUpdate(s.tickets, step.i, Next(s, step).tickets[step.i], chat);
    }
  }

  lemma {:induction false} SomeoneIsFirst(tickets: seq<Ticket>, chat: ChatKey) returns (i: nat)
    requires Work(tickets, chat) > 0
    ensures i < |tickets| && tickets[i].chat == chat && WorkOf(tickets[i]) > 0
    ensures forall j :: 0 <= j < i && tickets[j].chat == chat ==> WorkOf(tickets[j]) == 0
    decreases |tickets|
  {
    var n := |tickets| - 1;
    if Work(tickets[..n], chat) > 0 {
      i := SomeoneIsFirst(tickets[..n], chat);
    } else {
      i := n;
      NoWork(tickets[..n], chat);
      assert forall j :: 0 <= j < n ==> tickets[..n][j] == tickets[j];
    }
  }

  lemma {:induction false} NoWork(tickets: seq<Ticket>, chat: ChatKey)
    ensures Work(tickets, chat) == 0 <==> forall j :: 0 <= j < |tickets| && tickets[j].chat == chat ==> WorkOf(tickets[j]) == 0
    decreases |tickets|
  {
    if tickets != [] {
      NoWork(tickets[..|tickets| - 1], chat);
    }
  }

  /** While a chat has an update that is not through, one of the chat's own steps can be taken, whatever other chats do. */
  lemma AlwaysSomeStep(s: State, chat: ChatKey)
    requires Inv(s) && Work(s.tickets, chat) > 0
    ensures exists step :: Enabled(s, step) && Serves(s, step, chat)
  {
    var i := SomeoneIsFirst(s.tickets, chat);
    var t := s.tickets[i];
    assert PrevSettled(s, i);
    var step := match t.phase case Waiting => Resume(i) case Running => Finish(i, false) case Done(_) => Settle(i);
    assert Enabled(s, step) && Serves(s, step, chat);
  }

  predicate AllServe(s: State, steps: seq<Step>, chat: ChatKey)
    requires CanRun(s, steps)
    decreases |steps|
  {
    steps == [] || (Serves(s, steps[0], chat) && AllServe(Next(s, steps[0]), steps[1..], chat))
  }

  lemma {:induction false} OwnStepsUseUpWork(s: State, steps: seq<Step>, chat: ChatKey)
    requires Inv(s) && CanRun(s, steps) && AllServe(s, steps, chat)
    ensures Work(Run(s, steps).tickets, chat) == Work(s.tickets, chat) - |steps|
    decreases |steps|
  {
    if steps != [] {
      StepKeepsInv(s, steps[0]);
      WorkOfStep(s, steps[0], chat);
      OwnStepsUseUpWork(Next(s, steps[0]), steps[1..], chat);
    }
  }

  /** From every state a chat can be brought to rest by its own steps alone, and no way to do so takes more or fewer of them. */
  lemma {:induction false} ChatDrains(s: State, chat: ChatKey)
    requires Inv(s)
    ensures exists steps :: CanRun(s, steps) && AllServe(s, steps, chat) && Work(Run(s, steps).tickets, chat) == 0
    ensures forall steps :: CanRun(s, steps) && AllServe(s, steps, chat) && Work(Run(s, steps).tickets, chat) == 0 ==>
              |steps| == Work(s.tickets, chat)
    decreases Work(s.tickets, chat)
  {
    forall steps | CanRun(s, steps) && AllServe(s, steps, chat) && Work(Run(s, steps).tickets, chat) == 0
      ensures |steps| == Work(s.tickets, chat)
    {
      OwnStepsUseUpWork(s, steps, chat);
    }
    hide Inv, Next;
    if Work(s.tickets, chat) == 0 {
      assert CanRun(s, []) && AllServe(s, [], chat) && Run(s, []) == s;
    } else {
      AlwaysSomeStep(s, chat);
      var step :| Enabled(s, step) && Serves(s, step, chat);
      StepKeepsInv(s, step);
      WorkOfStep(s, step, chat);
      hide Work, Enabled, Serves, EventOf;
      ChatDrains(Next(s, step), chat);
      var rest :| CanRun(Next(s, step), rest) && AllServe(Next(s, step), rest, chat)
                  && Work(Run(Next(s, step), rest).tickets, chat) == 0;
      var steps := [step] + rest;
      assert steps[1..] == rest;
      assert CanRun(s, steps) && AllServe(s, steps, chat) && Run(s, steps) == Run(Next(s, step), rest);
    }
  }

  // ---------------------------------------------------------------- the middleware's state

  class ChatChains {
    var tickets: seq<Ticket>
    var chains: map<ChatKey, nat>

    ghost function Abstract(): State
      reads this
    {
      State(tickets, chains)
    }

    constructor ()
      ensures Abstract() == NOBODY && Inv(Abstract())
    {
      tickets, chains := [], map[];
    }

    /** Up to the first `await`. The update runs at once when there is no ticket. */
    method Enter(chat: Option<ChatKey>, recovery: bool) returns (ticket: Option<nat>)
      requires Inv(Abstract())
      modifies this
      ensures Abstract() == Next(old(Abstract()), Arrive(chat, recovery)) && Inv(Abstract())
      ensures ticket == if recovery || chat.None? then None else Some(|old(tickets)|)
    {
      StepKeepsInv(Abstract(), Arrive(chat, recovery));
      if recovery {
        return None;
      }
      if chat.None? {
        return None;
      }
      var prev := if chat.value in chains then Some(chains[chat.value]) else None;
      ticket := Some(|tickets|);
      tickets := tickets + [Ticket(chat.value, prev, Waiting, false, false)];
      chains := chains[chat.value := ticket.value];
    }

    /** The `await` of the earlier tail is over, and the handler begins. Nobody else in the chat is running. */
    method Begin(i: nat)
      requires Inv(Abstract()) && Enabled(Abstract(), Resume(i))
      modifies this`tickets
      ensures Abstract() == Next(old(Abstract()), Resume(i)) && Inv(Abstract())
      ensures forall j :: 0 <= j < |tickets| && j != i && tickets[j].chat == tickets[i].chat ==> !tickets[j].phase.Running?
    {
      StepKeepsInv(Abstract(), Resume(i));
      tickets := tickets[i := tickets[i].(phase := Running)];
      forall j | 0 <= j < |tickets| && j != i && tickets[j].chat == tickets[i].chat ensures !tickets[j].phase.Running? {
        if j < i {
          EarlierOnesAreThrough(Abstract(), i, j);
        } else if !tickets[j].phase.Waiting? {
          EarlierOnesAreThrough(Abstract(), j, i);
        }
      }
    }

    /** The handler returned or threw; `finally` opens the gate in either case. */
    method Leave(i: nat, threw: bool)
      requires Inv(Abstract()) && Enabled(Abstract(), Finish(i, threw))
      modifies this`tickets
      ensures Abstract() == Next(old(Abstract()), Finish(i, threw)) && Inv(Abstract())
    {
      StepKeepsInv(Abstract(), Finish(i, threw));
      tickets := tickets[i := tickets[i].(phase := Done(threw))];
      tickets := tickets[i := tickets[i].(gateOpen := true)];
    }
  }
}
