// How many requests a fixed-window counter lets through in an interval as long as its window.
// Both src/app/flood-protection.ts and the in-memory limiter of src/api/reseller-api.ts:447-461 count this way.
module WindowBudget {
  import opened Common

  // ---------------------------------------------------------------- requests in order of time

  datatype Call = Call(who: int, now: int)

  predicate InOrder(begin: int, calls: seq<Call>) {
    && (forall i :: 0 <= i < |calls| ==> begin <= calls[i].now)
    && (forall i, j :: 0 <= i < j < |calls| ==> calls[i].now <= calls[j].now)
  }

  /** The time of the last call. */
  function Last(begin: int, calls: seq<Call>): int {
    if calls == [] then begin else calls[|calls| - 1].now
  }

  lemma InOrderPrefix(begin: int, calls: seq<Call>)
    requires InOrder(begin, calls) && calls != []
    ensures var n := |calls| - 1;
            InOrder(begin, calls[..n]) && Last(begin, calls[..n]) <= calls[n].now && Last(begin, calls) == calls[n].now
  {
  }

  /** Calls somebody sent at `from` or later. */
  function Sent(calls: seq<Call>, who: int, from: int): nat {
    if calls == [] then 0
    else
      var n := |calls| - 1;
      Sent(calls[..n], who, from) + if calls[n].who == who && calls[n].now >= from then 1 else 0
  }

  lemma {:induction false} SentEarlier(calls: seq<Call>, who: int, from: int, earlier: int)
    requires earlier <= from
    ensures Sent(calls, who, earlier) >= Sent(calls, who, from)
  {
    if calls != [] {
      SentEarlier(calls[..|calls| - 1], who, from, earlier);
    }
  }

  // ---------------------------------------------------------------- the budget

  /** A counter that is running: requests let through since `start`. */
  datatype Count = Count(admitted: nat, start: int)

  /** Limit per window, window length, and the front of the interval that is looked at. */
  datatype Frame = Frame(limit: nat, length: nat, from: int) {
    function End(): int {
      from + length
    }
  }

  /**
   * What a single user's history says about the interval of one window length that starts at `f.from`.
   * So far `c` requests in it were let through, the counter was evicted `e` times in it, and it is `now`.
   * Either the running window has not let anything through in the interval; or it is the first window since the last
   * eviction that has, and began less than one length before the interval; or it is the second, and began inside.
   */
  ghost predicate Budget(f: Frame, running: Option<Count>, c: nat, e: nat, now: int) {
    && (running.Some? ==> running.value.start <= now && running.value.admitted <= f.limit)
    && if now > f.End() then c <= f.limit * e + 2 * f.limit
       else if now < f.from then c == 0 && e == 0
       else match running
         case None => c <= f.limit * e || (c <= f.limit * e + f.limit && now > f.from)
         case Some(w) =>
           || c <= f.limit * e
           || (c <= f.limit * e + w.admitted && w.start > f.from - f.length)
           || (c <= f.limit * e + f.limit + w.admitted && w.start > f.from)
  }

  predicate Inside(f: Frame, t: int) {
    f.from <= t <= f.End()
  }

  /** Time passes, or a request is turned away. */
  lemma Waits(f: Frame, running: Option<Count>, c: nat, e: nat, now: int, later: int)
    requires Budget(f, running, c, e, now) && now <= later
    ensures Budget(f, running, c, e, later)
  {
  }

  lemma Admits(f: Frame, w: Count, c: nat, e: nat, now: int)
    requires Budget(f, Some(w), c, e, now) && w.admitted < f.limit && now < w.start + f.length
    ensures Budget(f, Some(w.(admitted := w.admitted + 1)), if Inside(f, now) then c + 1 else c, e, now)
  {
  }

  lemma Opens(f: Frame, running: Option<Count>, c: nat, e: nat, now: int)
    requires Budget(f, running, c, e, now) && f.limit >= 1 && f.length >= 1
    requires running.Some? ==> now >= running.value.start + f.length
    ensures Budget(f, Some(Count(1, now)), if Inside(f, now) then c + 1 else c, e, now)
  {
  }

  lemma Evicts(f: Frame, w: Count, c: nat, e: nat, now: int)
    requires Budget(f, Some(w), c, e, now)
    ensures Budget(f, None, c, if Inside(f, now) then e + 1 else e, now)
  {
    assert f.limit * (e + 1) == f.limit * e + f.limit;
  }

  lemma Concludes(f: Frame, running: Option<Count>, c: nat, e: nat, now: int)
    requires Budget(f, running, c, e, now)
    ensures c <= f.limit * e + 2 * f.limit
  {
    assert f.limit * e >= 0;
  }
}
