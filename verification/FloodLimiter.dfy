// The two per-user limiters of src/app/flood-protection.ts: fixed windows for updates, a cooldown for /start.
module FloodLimiter {
  import opened Common

  type UserId = int

  const MAX_UPDATES_PER_WINDOW: nat := 45
  const WINDOW_MS: nat := 60_000
  const START_COOLDOWN_MS: nat := 12_000
  const MAX_KEYS: nat := 50_000
  /** How many keys `pruneMap` drops, `Math.floor(maxSize * 0.1)`. */
  const DROP: nat := 5_000

  // ---------------------------------------------------------------- insertion-ordered maps

  /** A JavaScript `Map`: setting a key that is present keeps its place in the order. */
  datatype OrderedMap<V> = OrderedMap(order: seq<UserId>, values: map<UserId, V>) {
    ghost predicate Valid() {
      && (forall i, j :: 0 <= i < j < |order| ==> order[i] != order[j])
      && (forall k :: k in order <==> k in values)
    }

    function Set(key: UserId, value: V): OrderedMap<V> {
      OrderedMap(if key in values then order else order + [key], values[key := value])
    }

    function Without(key: UserId): OrderedMap<V> {
      OrderedMap(Filter(order, key), values - {key})
    }

    /** The `n` keys that were inserted first are gone. */
    function Dropped(n: nat): OrderedMap<V>
      requires n <= |order|
    {
      OrderedMap(order[n..], values - Elements(order[..n]))
    }
  }

  function Elements(s: seq<UserId>): set<UserId> {
    set k | k in s
  }

  function Filter(s: seq<UserId>, key: UserId): seq<UserId> {
    if s == [] then [] else if s[0] == key then Filter(s[1..], key) else [s[0]] + Filter(s[1..], key)
  }

  /** `pruneMap` at its only size. */
  function Pruned<V>(m: OrderedMap<V>): OrderedMap<V> {
    if |m.order| > MAX_KEYS then m.Dropped(DROP) else m
  }

  lemma SetValid<V>(m: OrderedMap<V>, key: UserId, value: V)
    requires m.Valid()
    ensures m.Set(key, value).Valid()
    ensures |m.Set(key, value).order| <= |m.order| + 1
    ensures key !in m.values ==> m.Set(key, value).order == m.order + [key]
  {
  }

  lemma SetTwice<V>(m: OrderedMap<V>, key: UserId, first: V, second: V)
    ensures m.Set(key, first).Set(key, second) == m.Set(key, second)
  {
    assert m.values[key := first][key := second] == m.values[key := second];
  }

  lemma DroppedValid<V>(m: OrderedMap<V>, n: nat)
    requires m.Valid() && n <= |m.order|
    ensures m.Dropped(n).Valid() && |m.Dropped(n).order| == |m.order| - n
    ensures forall k :: k in m.Dropped(n).values <==> k in m.order[n..]
    ensures forall k :: k in m.Dropped(n).values ==> m.Dropped(n).values[k] == m.values[k]
  {
    assert m.order == m.order[..n] + m.order[n..];
    assert forall k :: k in m.order <==> k in m.order[..n] || k in m.order[n..];
    assert forall i, j :: 0 <= i < n <= j < |m.order| ==> m.order[i] != m.order[j];
  }

  lemma {:induction false} FilterFirst(s: seq<UserId>)
    requires s != [] && s[0] !in s[1..]
    ensures Filter(s, s[0]) == s[1..]
  {
    FilterAbsent(s[1..], s[0]);
  }

  lemma {:induction false} FilterAbsent(s: seq<UserId>, key: UserId)
    requires key !in s
    ensures Filter(s, key) == s
  {
    if s != [] {
      FilterAbsent(s[1..], key);
    }
  }

  /** Deleting the first key is dropping one. */
  lemma WithoutFirst<V>(m: OrderedMap<V>)
    requires m.Valid() && m.order != []
    ensures m.Without(m.order[0]) == m.Dropped(1)
  {
    FilterFirst(m.order);
    assert Elements(m.order[..1]) == {m.order[0]};
  }

  lemma DropNext<V>(m: OrderedMap<V>, i: nat)
    requires m.Valid() && i < |m.order|
    ensures m.Dropped(i).Without(m.order[i]) == m.Dropped(i + 1) && m.Dropped(i + 1).Valid()
  {
    DroppedValid(m, i);
    WithoutFirst(m.Dropped(i));
    DroppedTwice(m, i);
    DroppedValid(m, i + 1);
  }

  /** The loop of `pruneMap`: delete keys in order until `drop` of them are gone. */
  method PruneMap<V>(m: OrderedMap<V>, maxSize: nat) returns (r: OrderedMap<V>)
    requires m.Valid()
    ensures |m.order| <= maxSize ==> r == m
    ensures |m.order| > maxSize ==> r == m.Dropped(if maxSize / 10 == 0 then 1 else maxSize / 10)
    ensures r.Valid()
  {
    r := m;
    if |r.order| <= maxSize {
      return;
    }
    var drop := maxSize / 10;
    var i := 0;
    DroppedNone(m);
    hide OrderedMap.Dropped, OrderedMap.Without, OrderedMap.Valid;
    while i < |m.order|
      invariant 0 <= i <= |m.order| && (i == 0 || i < drop)
      invariant r.Valid() && r == m.Dropped(i)
      decreases |m.order| - i
    {
      var key := m.order[i];
      DropNext(m, i);
      r := r.Without(key);
      i := i + 1;
      if i >= drop {
        break;
      }
    }
  }

  lemma DroppedNone<V>(m: OrderedMap<V>)
    ensures m.Dropped(0) == m
  {
    assert m.order[0..] == m.order && Elements(m.order[..0]) == {};
    assert m.values - {} == m.values;
  }

  lemma DroppedTwice<V>(m: OrderedMap<V>, i: nat)
    requires i < |m.order|
    ensures m.Dropped(i).Dropped(1) == m.Dropped(i + 1)
  {
    var rest := m.order[i..];
    var a, b := Elements(m.order[..i]), Elements(rest[..1]);
    assert rest[1..] == m.order[i + 1..];
    assert m.order[..i + 1] == m.order[..i] + rest[..1];
    assert Elements(m.order[..i + 1]) == a + b;
    assert m.values - a - b == m.values - (a + b);
  }

  // ---------------------------------------------------------------- specification of the calls

  datatype Window = Window(count: nat, start: int)

  /** One update of a user, at a time: the windows behind it, and whether it is let through. */
  function Updated(windows: OrderedMap<Window>, key: UserId, now: int): (OrderedMap<Window>, bool) {
    var isNew := key !in windows.values || now - windows.values[key].start >= WINDOW_MS;
    var state := if isNew then Window(1, now) else windows.values[key].(count := windows.values[key].count + 1);
    var after := windows.Set(key, state);
    if state.count > MAX_UPDATES_PER_WINDOW then (after, false) else (Pruned(after), true)
  }

  /** `checkStartCooldown` */
  function Started(cooldowns: OrderedMap<int>, key: UserId, now: int): (OrderedMap<int>, bool) {
    var last := if key in cooldowns.values then cooldowns.values[key] else 0;
    if now - last < START_COOLDOWN_MS then (cooldowns, false)
    else (Pruned(cooldowns.Set(key, now)), true)
  }

  ghost predicate Bounded<V>(m: OrderedMap<V>) {
    m.Valid() && |m.order| <= MAX_KEYS
  }

  /**
   * Setting a key of a bounded map and pruning leaves a bounded map with that key in it. Either nobody was dropped, or
   * exactly the 5000 keys that were inserted first, and the map was full before.
   */
  lemma SetAndPrune<V>(m: OrderedMap<V>, key: UserId, value: V)
    requires Bounded(m)
    ensures var r := Pruned(m.Set(key, value));
            && Bounded(r) && key in r.values && r.values[key] == value
            && (key in m.values || |m.order| < MAX_KEYS ==> r == m.Set(key, value))
            && (key !in m.values && |m.order| == MAX_KEYS ==> r.order == m.order[DROP..] + [key])
            && (forall k :: k in r.values && k != key ==> k in m.values && r.values[k] == m.values[k])
  {
    var s := m.Set(key, value);
    SetValid(m, key, value);
    assert forall k :: k in s.order <==> k in s.values;
    if |s.order| > MAX_KEYS {
      DroppedValid(s, DROP);
      assert s.order[DROP..] == m.order[DROP..] + [key];
    }
  }

  /** Both limiters keep their maps at 50 000 keys or fewer and never forget the user they have just dealt with. */
  lemma CallsStayBounded(windows: OrderedMap<Window>, cooldowns: OrderedMap<int>, key: UserId, now: int)
    requires Bounded(windows) && Bounded(cooldowns)
    ensures Bounded(Updated(windows, key, now).0) && key in Updated(windows, key, now).0.values
    ensures Bounded(Started(cooldowns, key, now).0)
    ensures Started(cooldowns, key, now).1 ==> key in Started(cooldowns, key, now).0.values
  {
    var isNew := key !in windows.values || now - windows.values[key].start >= WINDOW_MS;
    var state := if isNew then Window(1, now) else windows.values[key].(count := windows.values[key].count + 1);
    SetAndPrune(windows, key, state);
    SetAndPrune(cooldowns, key, now);
    SetValid(windows, key, state);
  }

  // ---------------------------------------------------------------- the module's state

  class FloodProtection {
    var updateWindows: OrderedMap<Window>
    var startCooldowns: OrderedMap<int>

    constructor ()
      ensures updateWindows == OrderedMap([], map[]) && startCooldowns == OrderedMap([], map[])
      ensures Bounded(updateWindows) && Bounded(startCooldowns)
    {
      updateWindows, startCooldowns := OrderedMap([], map[]), OrderedMap([], map[]);
    }

    /** The part of `floodProtectionMiddleware` behind its checks for private chats and recovery commands. */
    method Admit(key: UserId, now: int) returns (next: bool)
      requires Bounded(updateWindows)
      modifies this`updateWindows
      ensures (updateWindows, next) == Updated(old(updateWindows), key, now)
      ensures Bounded(updateWindows) && key in updateWindows.values
    {
      ghost var before := updateWindows;
      var state: Window;
      if key !in updateWindows.values || now - updateWindows.values[key].start >= WINDOW_MS {
        state := Window(0, now);
        updateWindows := updateWindows.Set(key, state);
      } else {
        state := updateWindows.values[key];
      }
      state := state.(count := state.count + 1);
      updateWindows := updateWindows.Set(key, state);
      assert updateWindows == before.Set(key, state) by { SetTwice(before, key, Window(0, now), state); }
      hide OrderedMap.Set;
      assert updateWindows.Valid() by { SetValid(before, key, state); }
      assert Bounded(Updated(before, key, now).0) && key in Updated(before, key, now).0.values by {
        CallsStayBounded(before, OrderedMap([], map[]), key, now);
      }
      hide Bounded, OrderedMap.Valid, OrderedMap.Dropped;
      if state.count > MAX_UPDATES_PER_WINDOW {
        return false;
      }
      if |updateWindows.order| > MAX_KEYS {
        updateWindows := PruneMap(updateWindows, MAX_KEYS);
      }
      next := true;
    }

    method CheckStartCooldown(key: UserId, now: int) returns (ok: bool)
      requires Bounded(startCooldowns)
      modifies this`startCooldowns
      ensures (startCooldowns, ok) == Started(old(startCooldowns), key, now)
      ensures Bounded(startCooldowns)
    {
      assert Bounded(Started(startCooldowns, key, now).0) by {
        CallsStayBounded(OrderedMap([], map[]), startCooldowns, key, now);
      }
      var last := if key in startCooldowns.values then startCooldowns.values[key] else 0;
      if now - last < START_COOLDOWN_MS {
        return false;
      }
      var after := startCooldowns.Set(key, now);
      assert after.Valid() by { SetValid(startCooldowns, key, now); }
      hide Bounded;
      if |after.order| > MAX_KEYS {
        after := PruneMap(after, MAX_KEYS);
      }
      startCooldowns := after;
      ok := true;
    }
  }
}
