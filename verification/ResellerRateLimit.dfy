// The per-process request limiter of src/api/reseller-api.ts:447-461.
module ResellerRateLimit {
  import opened Common
  import opened WindowBudget

  type ResellerId = int

  datatype Slot = Slot(count: nat, resetAt: int)

  /** One request: the slots behind it, and whether it goes on to the handler. */
  function Counted(slots: map<ResellerId, Slot>, id: ResellerId, maxReq: nat, windowMs: nat, now: int)
    : (map<ResellerId, Slot>, bool)
  {
    if id !in slots || now >= slots[id].resetAt then (slots[id := Slot(1, now + windowMs)], true)
    else if slots[id].count >= maxReq then (slots, false)
    else (slots[id := slots[id].(count := slots[id].count + 1)], true)
  }

  class RateLimiter {
    var slots: map<ResellerId, Slot>

    constructor ()
      ensures slots == map[]
    {
      slots := map[];
    }

    /** Seconds for the Retry-After header, or `None` when the request goes on. */
    method RequireRateLimit(id: ResellerId, maxReq: nat, windowMs: nat, now: int) returns (retryAfter: Option<nat>)
      modifies this
      ensures (slots, retryAfter.None?) == Counted(old(slots), id, maxReq, windowMs, now)
      ensures retryAfter.Some? ==>
        && id in slots && 1 <= retryAfter.value
        && now + 1000 * (retryAfter.value - 1) < slots[id].resetAt <= now + 1000 * retryAfter.value
    {
      if id !in slots || now >= slots[id].resetAt {
        slots := slots[id := Slot(1, now + windowMs)];
        return None;
      }
      var state := slots[id];
      if state.count >= maxReq {
        var seconds := (state.resetAt - now + 999) / 1000;
        return Some(Max(1, seconds));
      }
      slots := slots[id := state.(count := state.count + 1)];
      retryAfter := None;
    }
  }

  /** The slots behind a sequence of requests of resellers that all have the same limit. */
  function SlotsAfter(slots: map<ResellerId, Slot>, maxReq: nat, windowMs: nat, requests: seq<Call>): map<ResellerId, Slot> {
    if requests == [] then slots
    else
      var n := |requests| - 1;
      Counted(SlotsAfter(slots, maxReq, windowMs, requests[..n]), requests[n].who, maxReq, windowMs, requests[n].now).0
  }

  /** How many requests of the reseller were let through from `f.from` to `f.End()`. */
  function Admitted(slots: map<ResellerId, Slot>, maxReq: nat, f: Frame, requests: seq<Call>, id: ResellerId): nat
    requires f.length >= 0
  {
    if requests == [] then 0
    else
      var n := |requests| - 1;
      var r := requests[n];
      Admitted(slots, maxReq, f, requests[..n], id)
      + (if r.who == id && Inside(f, r.now) && Counted(SlotsAfter(slots, maxReq, f.length, requests[..n]), r.who, maxReq, f.length, r.now).1
         then 1 else 0)
  }

  function Counter(slots: map<ResellerId, Slot>, id: ResellerId, f: Frame): Option<Count>
    requires f.limit >= 0
  {
    if id in slots then Some(Count(Min(slots[id].count, f.limit), slots[id].resetAt - f.length)) else None
  }

  lemma RequestBudget(slots: map<ResellerId, Slot>, maxReq: nat, r: Call, id: ResellerId, f: Frame, c: nat, now: int)
    requires f.limit == Max(1, maxReq) && f.length >= 1 && now <= r.now
    requires Budget(f, Counter(slots, id, f), c, 0, now)
    ensures var (after, ok) := Counted(slots, r.who, maxReq, f.length, r.now);
            Budget(f, Counter(after, id, f), c + (if r.who == id && Inside(f, r.now) && ok then 1 else 0), 0, r.now)
  {
    Waits(f, Counter(slots, id, f), c, 0, now, r.now);
    hide Budget;
    if r.who == id {
      if id !in slots || r.now >= slots[id].resetAt {
        Opens(f, Counter(slots, id, f), c, 0, r.now);
      } else if slots[id].count < maxReq {
        Admits(f, Counter(slots, id, f).value, c, 0, r.now);
      }
    }
  }

  lemma {:induction false} TraceBudget(slots: map<ResellerId, Slot>, maxReq: nat, f: Frame, requests: seq<Call>,
                                       id: ResellerId, begin: int)
    requires f.limit == Max(1, maxReq) && f.length >= 1 && InOrder(begin, requests)
    requires id in slots ==> slots[id].resetAt - f.length <= begin
    ensures Budget(f, Counter(SlotsAfter(slots, maxReq, f.length, requests), id, f), Admitted(slots, maxReq, f, requests, id), 0,
                   Last(begin, requests))
    decreases |requests|
  {
    if requests != [] {
      var n := |requests| - 1;
      InOrderPrefix(begin, requests);
      hide Budget, InOrder, Last, Counter, Counted;
      TraceBudget(slots, maxReq, f, requests[..n], id, begin);
      RequestBudget(SlotsAfter(slots, maxReq, f.length, requests[..n]), maxReq, requests[n], id, f,
                    Admitted(slots, maxReq, f, requests[..n], id), Last(begin, requests[..n]));
    }
  }

  /**
   * With a clock that does not go back: in any interval of one window length, ends included, at most twice the limit of a
   * reseller's requests are let through. A limit of 0 acts like a limit of 1, because the first request of a
   * window is not compared with it.
   */
  lemma AtMostTwiceTheLimit(slots: map<ResellerId, Slot>, maxReq: nat, windowMs: nat, requests: seq<Call>, id: ResellerId,
                            from: int, begin: int)
    requires windowMs >= 1 && InOrder(begin, requests)
    requires id in slots ==> slots[id].resetAt - windowMs <= begin
    ensures Admitted(slots, maxReq, Frame(Max(1, maxReq), windowMs, from), requests, id) <= 2 * Max(1, maxReq)
  {
    var f := Frame(Max(1, maxReq), windowMs, from);
    TraceBudget(slots, maxReq, f, requests, id, begin);
    Concludes(f, Counter(SlotsAfter(slots, maxReq, windowMs, requests), id, f), Admitted(slots, maxReq, f, requests, id), 0,
              Last(begin, requests));
  }

  /** A slot never counts more than the reseller sent since its window began. */
  lemma {:induction false} CountIsSent(maxReq: nat, windowMs: nat, requests: seq<Call>, id: ResellerId, begin: int)
    requires windowMs >= 1 && InOrder(begin, requests)
    ensures var slots := SlotsAfter(map[], maxReq, windowMs, requests);
            id in slots ==>
              && slots[id].resetAt - windowMs <= Last(begin, requests)
              && slots[id].count <= Sent(requests, id, slots[id].resetAt - windowMs)
    decreases |requests|
  {
    if requests != [] {
      InOrderPrefix(begin, requests);
      CountIsSent(maxReq, windowMs, requests[..|requests| - 1], id, begin);
    }
  }

  /** A request is turned away only when its reseller sent as many as the limit in the one window length before it. */
  lemma RefusedAfterLimit(maxReq: nat, windowMs: nat, requests: seq<Call>, r: Call, begin: int)
    requires windowMs >= 1 && InOrder(begin, requests) && Last(begin, requests) <= r.now
    requires !Counted(SlotsAfter(map[], maxReq, windowMs, requests), r.who, maxReq, windowMs, r.now).1
    ensures Sent(requests, r.who, r.now - windowMs + 1) >= maxReq
  {
    CountIsSent(maxReq, windowMs, requests, r.who, begin);
    SentEarlier(requests, r.who, SlotsAfter(map[], maxReq, windowMs, requests)[r.who].resetAt - windowMs, r.now - windowMs + 1);
  }

  // ---------------------------------------------------------------- the bound is met

  /** So many calls at one moment. */
  function Burst(id: ResellerId, now: int, n: nat): (calls: seq<Call>)
    ensures |calls| == n
  {
    if n == 0 then [] else Burst(id, now, n - 1) + [Call(id, now)]
  }

  /** One more call that is let through. */
  lemma OneMoreCall(slots: map<ResellerId, Slot>, maxReq: nat, f: Frame, earlier: seq<Call>, id: ResellerId, now: int)
    requires f.length >= 0 && Inside(f, now)
    requires Counted(SlotsAfter(slots, maxReq, f.length, earlier), id, maxReq, f.length, now).1
    ensures var calls := earlier + [Call(id, now)];
            && Admitted(slots, maxReq, f, calls, id) == Admitted(slots, maxReq, f, earlier, id) + 1
            && SlotsAfter(slots, maxReq, f.length, calls)
               == Counted(SlotsAfter(slots, maxReq, f.length, earlier), id, maxReq, f.length, now).0
  {
    var calls := earlier + [Call(id, now)];
    assert calls[..|calls| - 1] == earlier && calls[|calls| - 1] == Call(id, now);
    hide Counted;
  }

  /** Behind calls whose window is over, a burst within the limit goes through as a whole. */
  lemma {:induction false} BurstGoesThrough(slots: map<ResellerId, Slot>, maxReq: nat, f: Frame, earlier: seq<Call>, id: ResellerId,
                                            now: int, n: nat)
    requires f.length >= 1 && n <= Max(1, maxReq) && Inside(f, now)
    requires var s := SlotsAfter(slots, maxReq, f.length, earlier); id !in s || now >= s[id].resetAt
    ensures var calls := earlier + Burst(id, now, n);
            && Admitted(slots, maxReq, f, calls, id) == Admitted(slots, maxReq, f, earlier, id) + n
            && var s := SlotsAfter(slots, maxReq, f.length, calls);
            && (n == 0 ==> s == SlotsAfter(slots, maxReq, f.length, earlier))
            && (n > 0 ==> id in s && s[id] == Slot(n, now + f.length))
  {
    hide SlotsAfter, Admitted;
    if n == 0 {
      assert earlier + Burst(id, now, n) == earlier;
    } else {
      var before := earlier + Burst(id, now, n - 1);
      BurstGoesThrough(slots, maxReq, f, earlier, id, now, n - 1);
      assert earlier + Burst(id, now, n) == before + [Call(id, now)];
      OneMoreCall(slots, maxReq, f, before, id, now);
    }
  }

  lemma {:induction false} BurstIsAtOnce(id: ResellerId, now: int, n: nat)
    ensures forall i :: 0 <= i < n ==> Burst(id, now, n)[i] == Call(id, now)
  {
    if n > 0 {
      BurstIsAtOnce(id, now, n - 1);
    }
  }

  /** The bound is met for every limit: two bursts of the limit's size, at the two ends of one window length, all go through. */
  lemma TwiceTheLimitHappens(maxReq: nat, windowMs: nat, id: ResellerId, from: int)
    requires windowMs >= 1
    ensures var limit := Max(1, maxReq);
            var requests := Burst(id, from, limit) + Burst(id, from + windowMs, limit);
            && InOrder(from, requests) && |requests| == 2 * limit
            && Admitted(map[], maxReq, Frame(limit, windowMs, from), requests, id) == 2 * limit
  {
    var limit := Max(1, maxReq);
    var f := Frame(limit, windowMs, from);
    var first := Burst(id, from, limit);
    assert [] + first == first;
    assert SlotsAfter(map[], maxReq, windowMs, []) == map[] && Admitted(map[], maxReq, f, [], id) == 0;
    BurstsInOrder(id, from, windowMs, limit);
    hide Burst, InOrder, SlotsAfter, Admitted, Counted;
    BurstGoesThrough(map[], maxReq, f, [], id, from, limit);
    BurstGoesThrough(map[], maxReq, f, first, id, from + windowMs, limit);
  }

  lemma BurstsInOrder(id: ResellerId, from: int, windowMs: nat, n: nat)
    ensures InOrder(from, Burst(id, from, n) + Burst(id, from + windowMs, n))
  {
    BurstIsAtOnce(id, from, n);
    BurstIsAtOnce(id, from + windowMs, n);
    hide Burst;
  }
}
