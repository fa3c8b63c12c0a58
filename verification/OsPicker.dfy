// Which OS templates the VPS keyboards offer, and in what order: src/shared/vmm-os-display.ts:7-120.
module OsPicker {
  import opened Common
  import MessageText

  datatype Template = Template(id: int, name: string, adminonly: bool, state: Option<string>, repository: Option<string>)

  const FEDORA_SLOT: nat := 7
  const SLOTS: nat := 20

  // ---------------------------------------------------------------- slugs

  /** `[-_\s]` */
  predicate IsDropped(c: char) {
    c == '-' || c == '_' || MessageText.IsSpace(c)
  }

  /**
   * `toLowerCase`, as far as slugs go. Outside ASCII only the Kelvin sign has a lower-case form that is a single ASCII letter; every
   * other character keeps one outside ASCII in its lower-case form, so that no slug with it is in the table.
   */
  function Lower(c: char): char {
    if c == '\U{212A}' then 'k' else MessageText.Lower(c)
  }

  function Squeezed(raw: string): string {
    if raw == "" then "" else (if IsDropped(raw[0]) then "" else [Lower(raw[0])]) + Squeezed(raw[1..])
  }

  /** `normalizeVmmOsSlug`; trimming first makes no difference, because white space is dropped anyway. */
  function NormalizeSlug(raw: string): string {
    var lower := Squeezed(raw);
    if lower == "alma8" then "almalinux8" else if lower == "alma9" then "almalinux9" else lower
  }

  predicate IsDigit(c: char) {
    '0' <= c <= '9'
  }

  function ParseDigits(s: string): nat
    requires forall c :: c in s ==> IsDigit(c)
  {
    if s == "" then 0
    else
      assert IsDigit(s[|s| - 1]);
      ParseDigits(s[..|s| - 1]) * 10 + (s[|s| - 1] as int - '0' as int)
  }

  /** The version when the slug matches `^fedora(\d+)$`. */
  function FedoraVersion(slug: string): Option<nat> {
    if "fedora" <= slug && |slug| > 6 && forall c :: c in slug[6..] ==> IsDigit(c) then Some(ParseDigits(slug[6..])) else None
  }

  function SortIndex(slug: string): (r: Option<nat>)
    ensures r.Some? ==> r.value < SLOTS && r.value != FEDORA_SLOT
  {
    match slug
    case "ubuntu2404" => Some(0)
    case "centosstream9" => Some(1)
    case "centos9" => Some(1)
    case "ubuntu2204" => Some(2)
    case "centosstream8" => Some(3)
    case "centos8" => Some(3)
    case "ubuntu2004" => Some(4)
    case "oraclelinux9" => Some(5)
    case "oracle9" => Some(5)
    case "debian13" => Some(6)
    case "debian12" => Some(8)
    case "winserver2022" => Some(9)
    case "debian11" => Some(10)
    case "winserver2019" => Some(11)
    case "almalinux9" => Some(12)
    case "alma9" => Some(12)
    case "winserver2016" => Some(13)
    case "almalinux8" => Some(14)
    case "alma8" => Some(14)
    case "winserver2012r2" => Some(15)
    case "winserver2012" => Some(15)
    case "rockylinux9" => Some(16)
    case "rockylinux8" => Some(18)
    case "windows10pro" => Some(17)
    case "win10pro" => Some(17)
    case "windows10" => Some(17)
    case "win10" => Some(17)
    case "windows11pro" => Some(19)
    case "win11pro" => Some(19)
    case "windows11" => Some(19)
    case "win11" => Some(19)
    case _ => None
  }

  // ---------------------------------------------------------------- versions and slots

  /** The decimal digits of a number, without leading zeros. */
  function Decimal(n: nat): (s: string)
    ensures s != "" && forall c :: c in s ==> IsDigit(c)
  {
    if n < 10 then [n as char + '0'] else Decimal(n / 10) + [(n % 10) as char + '0']
  }

  /** Versions are read as decimal numbers. */
  lemma {:induction false} ReadsDecimals(n: nat)
    ensures ParseDigits(Decimal(n)) == n
  {
    var s := Decimal(n);
    if n < 10 {
      assert s[..|s| - 1] == "" && s[0] as int - '0' as int == n;
    } else {
      ReadsDecimals(n / 10);
      assert s[..|s| - 1] == Decimal(n / 10) && s[|s| - 1] as int - '0' as int == n % 10;
    }
  }

  /** Zeros in front do not matter. */
  lemma {:induction false} LeadingZero(s: string)
    requires forall c :: c in s ==> IsDigit(c)
    ensures ParseDigits("0" + s) == ParseDigits(s)
  {
    var z := "0" + s;
    if s == "" {
      assert z[..0] == "";
    } else {
      assert z[..|z| - 1] == "0" + s[..|s| - 1];
      LeadingZero(s[..|s| - 1]);
    }
  }

  /** So a Fedora template's version is the number behind its name. */
  lemma FedoraIsNumbered(n: nat)
    ensures FedoraVersion("fedora" + Decimal(n)) == Some(n)
  {
    var slug := "fedora" + Decimal(n);
    assert slug[6..] == Decimal(n);
    ReadsDecimals(n);
  }

  /** The slugs of each place in the keyboard, left to right and top to bottom. */
  const PLACES: seq<seq<string>> := [
    ["ubuntu2404"], ["centosstream9", "centos9"],
    ["ubuntu2204"], ["centosstream8", "centos8"],
    ["ubuntu2004"], ["oraclelinux9", "oracle9"],
    ["debian13"], [],
    ["debian12"], ["winserver2022"],
    ["debian11"], ["winserver2019"],
    ["almalinux9", "alma9"], ["winserver2016"],
    ["almalinux8", "alma8"], ["winserver2012r2", "winserver2012"],
    ["rockylinux9"], ["windows10pro", "win10pro", "windows10", "win10"],
    ["rockylinux8"], ["windows11pro", "win11pro", "windows11", "win11"]]

  /** Every slug goes where the keyboard has it; the place left free is Fedora's. */
  lemma PlacesAreSlots(slug: string, place: nat)
    requires place < 20
    ensures SortIndex(slug) == Some(place) <==> slug in PLACES[place]
    ensures PLACES[7] == []
  {
  }

  // ---------------------------------------------------------------- what a pick is

  predicate IsActive(os: Template) {
    !os.adminonly && os.name != "NoOS" && os.state == Some("active") && os.repository != Some("ISPsystem LXD")
  }

  predicate IsAllowed(os: Template, allowed: Option<set<int>>) {
    allowed.None? || allowed.value == {} || os.id in allowed.value
  }

  /** The place a template can fill, if it may be offered at all. */
  function SlotOf(os: Template, allowed: Option<set<int>>): Option<nat> {
    if !IsActive(os) || !IsAllowed(os, allowed) then None
    else if FedoraVersion(NormalizeSlug(os.name)).Some? then Some(FEDORA_SLOT)
    else SortIndex(NormalizeSlug(os.name))
  }

  /** Only Fedora templates compete by version. */
  function Rank(os: Template): nat {
    FedoraVersion(NormalizeSlug(os.name)).UnwrapOr(0)
  }

  /** Template `k` of the list wins its slot: it outranks every earlier rival, and no later one outranks it. */
  ghost predicate Wins(list: seq<Template>, allowed: Option<set<int>>, k: nat) {
    && k < |list| && SlotOf(list[k], allowed).Some?
    && (forall j :: 0 <= j < k && SlotOf(list[j], allowed) == SlotOf(list[k], allowed) ==> Rank(list[j]) < Rank(list[k]))
    && (forall j :: k < j < |list| && SlotOf(list[j], allowed) == SlotOf(list[k], allowed) ==> Rank(list[j]) <= Rank(list[k]))
  }

  ghost predicate IsWinner(list: seq<Template>, allowed: Option<set<int>>, t: Template) {
    exists k: nat :: Wins(list, allowed, k) && list[k] == t
  }

  predicate Fills(picks: seq<Template>, allowed: Option<set<int>>, slot: Option<nat>) {
    exists i :: 0 <= i < |picks| && SlotOf(picks[i], allowed) == slot
  }

  predicate Increasing(s: seq<Template>, allowed: Option<set<int>>) {
    forall i, j :: 0 <= i < j < |s| ==> Before(s[i], s[j], allowed)
  }

  /** The picks are the winners of the list, all of them, in strictly increasing slots. */
  ghost predicate IsPick(list: seq<Template>, allowed: Option<set<int>>, picks: seq<Template>) {
    && (forall t :: t in picks ==> IsWinner(list, allowed, t))
    && Increasing(picks, allowed)
    && (forall t :: t in list && SlotOf(t, allowed).Some? ==> Fills(picks, allowed, SlotOf(t, allowed)))
  }

  predicate Before(a: Template, b: Template, allowed: Option<set<int>>) {
    && SlotOf(a, allowed).Some? && SlotOf(b, allowed).Some?
    && SlotOf(a, allowed).value < SlotOf(b, allowed).value
  }

  // ---------------------------------------------------------------- the loop

  /** The best template for a slot so far. */
  function Best(list: seq<Template>, allowed: Option<set<int>>, slot: nat): Option<Template> {
    if list == [] then None
    else
      var n := |list| - 1;
      var best := Best(list[..n], allowed, slot);
      if SlotOf(list[n], allowed) == Some(slot) && (best.None? || Rank(list[n]) > Rank(best.value)) then Some(list[n]) else best
  }

  lemma StillWins(list: seq<Template>, allowed: Option<set<int>>, k: nat)
    requires list != [] && Wins(list[..|list| - 1], allowed, k)
    requires var t := list[|list| - 1];
             SlotOf(t, allowed) == SlotOf(list[k], allowed) ==> Rank(t) <= Rank(list[k])
    ensures Wins(list, allowed, k)
  {
    hide SlotOf, Rank;
    assert forall j :: 0 <= j < |list| - 1 ==> list[..|list| - 1][j] == list[j];
  }

  lemma WinsNow(list: seq<Template>, allowed: Option<set<int>>, k: nat)
    requires list != [] && Wins(list[..|list| - 1], allowed, k)
    requires var t := list[|list| - 1];
             SlotOf(t, allowed) == SlotOf(list[k], allowed) && Rank(t) > Rank(list[k])
    ensures Wins(list, allowed, |list| - 1)
  {
    hide SlotOf, Rank;
    var n := |list| - 1;
    assert forall j :: 0 <= j < n ==> list[..n][j] == list[j];
    forall j | 0 <= j < n && SlotOf(list[j], allowed) == SlotOf(list[n], allowed) ensures Rank(list[j]) < Rank(list[n]) {
      assert SlotOf(list[..n][j], allowed) == SlotOf(list[..n][k], allowed);
    }
  }

  lemma {:induction false} BestWins(list: seq<Template>, allowed: Option<set<int>>, slot: nat)
    ensures match Best(list, allowed, slot)
            case Some(t) => IsWinner(list, allowed, t) && SlotOf(t, allowed) == Some(slot)
            case None => forall k :: 0 <= k < |list| ==> SlotOf(list[k], allowed) != Some(slot)
    decreases |list|
  {
    hide SlotOf, Rank;
    if list != [] {
      var n := |list| - 1;
      BestWins(list[..n], allowed, slot);
      var best := Best(list[..n], allowed, slot);
      assert forall j :: 0 <= j < n ==> list[..n][j] == list[j];
      if best.Some? {
        var k: nat :| Wins(list[..n], allowed, k) && list[..n][k] == best.value && SlotOf(best.value, allowed) == Some(slot);
        hide Wins;
        if SlotOf(list[n], allowed) == Some(slot) && Rank(list[n]) > Rank(best.value) {
          WinsNow(list, allowed, k);
        } else {
          StillWins(list, allowed, k);
        }
      } else if SlotOf(list[n], allowed) == Some(slot) {
        assert Wins(list, allowed, n);
      }
    }
  }

  /** All templates of a slot other than Fedora's rank alike. */
  lemma OnlyFedoraRanks(os: Template, allowed: Option<set<int>>)
    requires SlotOf(os, allowed).Some?
    ensures SlotOf(os, allowed).value < SLOTS
    ensures SlotOf(os, allowed).value != FEDORA_SLOT ==> Rank(os) == 0
    ensures SlotOf(os, allowed).value == FEDORA_SLOT <==> FedoraVersion(NormalizeSlug(os.name)).Some?
  {
  }

  /** One more template changes the best of its own slot only. */
  lemma BestOfOneMore(list: seq<Template>, n: nat, allowed: Option<set<int>>)
    requires n < |list|
    ensures forall slot: nat :: SlotOf(list[n], allowed) != Some(slot) ==>
              Best(list[..n + 1], allowed, slot) == Best(list[..n], allowed, slot)
    ensures SlotOf(list[n], allowed).Some? ==>
              var slot := SlotOf(list[n], allowed).value;
              var best := Best(list[..n], allowed, slot);
              Best(list[..n + 1], allowed, slot) == if best.None? || Rank(list[n]) > Rank(best.value) then Some(list[n]) else best
  {
    hide SlotOf, Rank;
    assert list[..n + 1][..n] == list[..n];
  }

  /** All templates of a slot other than Fedora's rank alike, so the first one stays. */
  lemma FirstStays(list: seq<Template>, n: nat, allowed: Option<set<int>>)
    requires n < |list| && SlotOf(list[n], allowed).Some? && SlotOf(list[n], allowed).value != FEDORA_SLOT
    ensures var slot := SlotOf(list[n], allowed).value;
            var best := Best(list[..n], allowed, slot);
            Best(list[..n + 1], allowed, slot) == if best.None? then Some(list[n]) else best
  {
    var slot := SlotOf(list[n], allowed).value;
    BestOfOneMore(list, n, allowed);
    BestWins(list[..n], allowed, slot);
    OnlyFedoraRanks(list[n], allowed);
    var best := Best(list[..n], allowed, slot);
    if best.Some? {
      OnlyFedoraRanks(best.value, allowed);
    }
  }

  /** The best template of every slot below `slot`, in order of slots. */
  function InOrder(list: seq<Template>, allowed: Option<set<int>>, slot: nat): seq<Template> {
    if slot == 0 then []
    else
      var best := Best(list, allowed, slot - 1);
      InOrder(list, allowed, slot - 1) + if best.Some? then [best.value] else []
  }

  /** `Map.get` */
  function Entry(bySlot: map<nat, Template>, slot: nat): Option<Template> {
    if slot in bySlot then Some(bySlot[slot]) else None
  }

  lemma EntryIn(bySlot: map<nat, Template>, slot: nat)
    ensures slot in bySlot <==> Entry(bySlot, slot).Some?
  {
  }

  lemma EntryOfUpdate(bySlot: map<nat, Template>, key: nat, os: Template)
    ensures forall slot: nat :: Entry(bySlot[key := os], slot) == if slot == key then Some(os) else Entry(bySlot, slot)
  {
    forall slot: nat ensures Entry(bySlot[key := os], slot) == if slot == key then Some(os) else Entry(bySlot, slot) {
      assert slot in bySlot[key := os] <==> slot == key || slot in bySlot;
    }
  }

  /** What the first loop knows about the rows it has seen. */
  ghost predicate Collected(seen: seq<Template>, allowed: Option<set<int>>, bySlot: map<nat, Template>,
                            bestFedora: Option<Template>, bestFedoraVersion: int)
  {
    && FEDORA_SLOT !in bySlot
    && (forall slot: nat :: slot != FEDORA_SLOT ==> Entry(bySlot, slot) == Best(seen, allowed, slot))
    && bestFedora == Best(seen, allowed, FEDORA_SLOT)
    && bestFedoraVersion == if bestFedora.Some? then Rank(bestFedora.value) else -1
  }

  lemma CollectFedora(list: seq<Template>, n: nat, allowed: Option<set<int>>, bySlot: map<nat, Template>,
                      bestFedora: Option<Template>, bestFedoraVersion: int)
    requires n < |list| && Collected(list[..n], allowed, bySlot, bestFedora, bestFedoraVersion)
    requires SlotOf(list[n], allowed) == Some(FEDORA_SLOT)
    ensures var os := list[n];
            if Rank(os) > bestFedoraVersion then Collected(list[..n + 1], allowed, bySlot, Some(os), Rank(os))
            else Collected(list[..n + 1], allowed, bySlot, bestFedora, bestFedoraVersion)
  {
    hide SlotOf, Rank, Best, Entry;
    BestOfOneMore(list, n, allowed);
  }

  lemma CollectOther(list: seq<Template>, n: nat, allowed: Option<set<int>>, bySlot: map<nat, Template>,
                     bestFedora: Option<Template>, bestFedoraVersion: int)
    requires n < |list| && Collected(list[..n], allowed, bySlot, bestFedora, bestFedoraVersion)
    requires SlotOf(list[n], allowed) != Some(FEDORA_SLOT)
    ensures var slot := SlotOf(list[n], allowed);
            Collected(list[..n + 1], allowed,
                      if slot.None? || slot.value in bySlot then bySlot else bySlot[slot.value := list[n]],
                      bestFedora, bestFedoraVersion)
  {
    hide SlotOf, Rank, Best, Entry;
    BestOfOneMore(list, n, allowed);
    var slot := SlotOf(list[n], allowed);
    if slot.Some? {
      FirstStays(list, n, allowed);
      EntryIn(bySlot, slot.value);
      if slot.value !in bySlot {
        EntryOfUpdate(bySlot, slot.value, list[n]);
        var updated, seen := bySlot[slot.value := list[n]], list[..n + 1];
        assert FEDORA_SLOT !in updated;
        forall k: nat | k != FEDORA_SLOT ensures Entry(updated, k) == Best(seen, allowed, k)
        {
          assert Entry(bySlot, k) == Best(list[..n], allowed, k);
          if k == slot.value {
            assert Best(list[..n], allowed, k) == None;
            assert Best(list[..n + 1], allowed, k) == Some(list[n]);
          } else {
            assert Best(list[..n + 1], allowed, k) == Best(list[..n], allowed, k);
          }
        }
      }
    }
  }

  /** The loop over the list, the Fedora slot, and the entries sorted by slot. */
  method FilterAndSort(list: seq<Template>, allowed: Option<set<int>>) returns (picks: seq<Template>)
    ensures IsPick(list, allowed, picks)
    ensures |picks| <= SLOTS
  {
    var bySlot: map<nat, Template> := map[];
    var bestFedora: Option<Template> := None;
    var bestFedoraVersion: int := -1;
    for n := 0 to |list|
      invariant Collected(list[..n], allowed, bySlot, bestFedora, bestFedoraVersion)
    {
      var os := list[n];
      if SlotOf(os, allowed) == Some(FEDORA_SLOT) {
        CollectFedora(list, n, allowed, bySlot, bestFedora, bestFedoraVersion);
      } else {
        CollectOther(list, n, allowed, bySlot, bestFedora, bestFedoraVersion);
      }
      hide Collected;
      if !IsActive(os) || !IsAllowed(os, allowed) {
        continue;
      }
      var slug := NormalizeSlug(os.name);
      var fedora := FedoraVersion(slug);
      if fedora.Some? {
        if fedora.value > bestFedoraVersion {
          bestFedoraVersion := fedora.value;
          bestFedora := Some(os);
        }
        continue;
      }
      var sortIndex := SortIndex(slug);
      if sortIndex.None? {
        continue;
      }
      if sortIndex.value !in bySlot {
        bySlot := bySlot[sortIndex.value := os];
      }
    }
    assert list[..|list|] == list;
    if bestFedora.Some? {
      EntryOfUpdate(bySlot, FEDORA_SLOT, bestFedora.value);
      bySlot := bySlot[FEDORA_SLOT := bestFedora.value];
    }
    assert forall slot: nat :: Entry(bySlot, slot) == Best(list, allowed, slot);
    hide Collected, Best, SlotOf, Rank, IsPick;
    picks := Sorted(bySlot, list, allowed);
    InOrderIsPick(list, allowed);
  }

  /** The entries by slot, without their keys. */
  method Sorted(bySlot: map<nat, Template>, ghost list: seq<Template>, ghost allowed: Option<set<int>>)
    returns (picks: seq<Template>)
    requires forall slot: nat :: Entry(bySlot, slot) == Best(list, allowed, slot)
    ensures picks == InOrder(list, allowed, SLOTS) && |picks| <= SLOTS
  {
    hide Best;
    picks := [];
    for slot := 0 to SLOTS
      invariant picks == InOrder(list, allowed, slot) && |picks| <= slot
    {
      assert Entry(bySlot, slot) == Best(list, allowed, slot);
      if slot in bySlot {
        picks := picks + [bySlot[slot]];
      }
    }
  }

  ghost predicate IsPickBelow(list: seq<Template>, allowed: Option<set<int>>, picks: seq<Template>, bound: nat) {
    && (forall t :: t in picks ==>
          IsWinner(list, allowed, t) && SlotOf(t, allowed).Some? && SlotOf(t, allowed).value < bound)
    && Increasing(picks, allowed)
    && (forall t :: t in list && SlotOf(t, allowed).Some? && SlotOf(t, allowed).value < bound ==>
          Fills(picks, allowed, SlotOf(t, allowed)))
  }

  lemma FillsMore(a: seq<Template>, b: seq<Template>, allowed: Option<set<int>>, slot: Option<nat>)
    requires Fills(a, allowed, slot) || Fills(b, allowed, slot)
    ensures Fills(a + b, allowed, slot)
  {
    hide SlotOf;
    if Fills(a, allowed, slot) {
      var i :| 0 <= i < |a| && SlotOf(a[i], allowed) == slot;
      assert (a + b)[i] == a[i];
    } else {
      var i :| 0 <= i < |b| && SlotOf(b[i], allowed) == slot;
      assert (a + b)[|a| + i] == b[i];
    }
  }

  lemma {:induction false} InOrderIsPickBelow(list: seq<Template>, allowed: Option<set<int>>, bound: nat)
    ensures IsPickBelow(list, allowed, InOrder(list, allowed, bound), bound)
  {
    hide SlotOf, IsWinner, Best;
    if bound > 0 {
      InOrderIsPickBelow(list, allowed, bound - 1);
      BestWins(list, allowed, bound - 1);
      var a, best := InOrder(list, allowed, bound - 1), Best(list, allowed, bound - 1);
      var last := if best.Some? then [best.value] else [];
      assert InOrder(list, allowed, bound) == a + last;
      assert Increasing(a + last, allowed) by {
        hide Fills;
        assert forall i :: 0 <= i < |a| ==> a[i] in a;
      }
      forall t | t in list && SlotOf(t, allowed).Some? && SlotOf(t, allowed).value < bound
        ensures Fills(a + last, allowed, SlotOf(t, allowed))
      {
        if SlotOf(t, allowed).value == bound - 1 {
          assert Fills(last, allowed, SlotOf(t, allowed)) by {
            assert SlotOf(last[0], allowed) == SlotOf(t, allowed);
          }
        }
        hide Fills;
        FillsMore(a, last, allowed, SlotOf(t, allowed));
      }
    }
  }

  lemma InOrderIsPick(list: seq<Template>, allowed: Option<set<int>>)
    ensures IsPick(list, allowed, InOrder(list, allowed, SLOTS))
  {
    hide SlotOf, IsWinner, InOrder, Fills, Increasing;
    InOrderIsPickBelow(list, allowed, SLOTS);
    forall t | t in list && SlotOf(t, allowed).Some? ensures SlotOf(t, allowed).value < SLOTS {
      OnlyFedoraRanks(t, allowed);
    }
  }

  // ---------------------------------------------------------------- there is only one pick

  lemma WinnerIsUnique(list: seq<Template>, allowed: Option<set<int>>, a: Template, b: Template)
    requires IsWinner(list, allowed, a) && IsWinner(list, allowed, b) && SlotOf(a, allowed) == SlotOf(b, allowed)
    ensures a == b
  {
    hide SlotOf, Rank;
    var j: nat :| Wins(list, allowed, j) && list[j] == a;
    var k: nat :| Wins(list, allowed, k) && list[k] == b;
    assert j == k;
  }

  lemma WinnerIsThere(list: seq<Template>, allowed: Option<set<int>>, t: Template)
    requires IsWinner(list, allowed, t)
    ensures t in list && SlotOf(t, allowed).Some?
  {
  }

  lemma SameTemplates(list: seq<Template>, allowed: Option<set<int>>, a: seq<Template>, b: seq<Template>, t: Template)
    requires IsPick(list, allowed, a) && IsPick(list, allowed, b) && t in a
    ensures t in b
  {
    hide SlotOf, IsWinner, Increasing;
    WinnerIsThere(list, allowed, t);
    var i :| 0 <= i < |b| && SlotOf(b[i], allowed) == SlotOf(t, allowed);
    assert b[i] in b;
    WinnerIsUnique(list, allowed, t, b[i]);
  }

  lemma {:induction false} IncreasingIsDetermined(a: seq<Template>, b: seq<Template>, allowed: Option<set<int>>)
    requires Increasing(a, allowed) && Increasing(b, allowed) && forall t :: t in a <==> t in b
    ensures a == b
    decreases |a|
  {
    hide SlotOf;
    assert b != [] ==> b[0] in a;
    if a != [] {
      assert a[0] in b && b != [];
      var i :| 0 <= i < |b| && b[i] == a[0];
      var j :| 0 <= j < |a| && a[j] == b[0];
      assert i == 0;
      assert forall t :: t in a[1..] <==> t in a && t != a[0];
      assert forall t :: t in b[1..] <==> t in b && t != b[0];
      IncreasingIsDetermined(a[1..], b[1..], allowed);
    }
  }

  /** A list has exactly one pick. */
  lemma PickIsUnique(list: seq<Template>, allowed: Option<set<int>>, a: seq<Template>, b: seq<Template>)
    requires IsPick(list, allowed, a) && IsPick(list, allowed, b)
    ensures a == b
  {
    assert Increasing(a, allowed) && Increasing(b, allowed);
    hide IsPick, Increasing;
    forall t ensures t in a <==> t in b {
      if t in a { SameTemplates(list, allowed, a, b, t); }
      if t in b { SameTemplates(list, allowed, b, a, t); }
    }
    IncreasingIsDetermined(a, b, allowed);
  }

  lemma PicksWinAgain(picks: seq<Template>, allowed: Option<set<int>>, i: nat)
    requires i < |picks| && Increasing(picks, allowed) && SlotOf(picks[i], allowed).Some?
    ensures IsWinner(picks, allowed, picks[i])
  {
    hide SlotOf, Rank;
    assert forall j :: 0 <= j < i ==> Before(picks[j], picks[i], allowed);
    assert forall j :: i < j < |picks| ==> Before(picks[i], picks[j], allowed);
    assert Wins(picks, allowed, i);
  }

  lemma PickOfPick(list: seq<Template>, allowed: Option<set<int>>, picks: seq<Template>)
    requires IsPick(list, allowed, picks)
    ensures IsPick(picks, allowed, picks)
  {
    hide SlotOf, Rank, IsWinner, Increasing;
    forall t | t in picks ensures IsWinner(picks, allowed, t) && Fills(picks, allowed, SlotOf(t, allowed)) {
      var i :| 0 <= i < |picks| && picks[i] == t;
      WinnerIsThere(list, allowed, t);
      PicksWinAgain(picks, allowed, i);
    }
  }

  /** Picking from a pick under the same allowlist changes nothing. */
  lemma PickTwice(list: seq<Template>, allowed: Option<set<int>>, picks: seq<Template>, again: seq<Template>)
    requires IsPick(list, allowed, picks) && IsPick(picks, allowed, again)
    ensures again == picks
  {
    hide IsPick;
    PickOfPick(list, allowed, picks);
    PickIsUnique(picks, allowed, picks, again);
  }

  // ---------------------------------------------------------------- what a reader of the keyboard can rely on

  /** Nothing is offered that is for administrators, inactive, of the excluded repository, or not allowed; and it has a place. */
  lemma PicksAreOffered(list: seq<Template>, allowed: Option<set<int>>, picks: seq<Template>, t: Template)
    requires IsPick(list, allowed, picks) && t in picks
    ensures t in list && !t.adminonly && t.name != "NoOS" && t.state == Some("active") && t.repository != Some("ISPsystem LXD")
    ensures allowed.Some? && allowed.value != {} ==> t.id in allowed.value
    ensures FedoraVersion(NormalizeSlug(t.name)).Some? || exists place :: 0 <= place < 20 && NormalizeSlug(t.name) in PLACES[place]
  {
    assert IsWinner(list, allowed, t);
    var slug := NormalizeSlug(t.name);
    if FedoraVersion(slug).None? {
      PlacesAreSlots(slug, SortIndex(slug).value);
    }
    hide SortIndex, NormalizeSlug;
  }

  /** Of the Fedora templates that may be offered the latest one is. */
  lemma LatestFedora(list: seq<Template>, allowed: Option<set<int>>, picks: seq<Template>, t: Template, version: nat)
    requires IsPick(list, allowed, picks) && t in list && IsActive(t) && IsAllowed(t, allowed)
    requires NormalizeSlug(t.name) == "fedora" + Decimal(version)
    ensures exists p :: p in picks && FedoraVersion(NormalizeSlug(p.name)).Some?
                        && FedoraVersion(NormalizeSlug(p.name)).value >= version
  {
    FedoraIsNumbered(version);
    hide SortIndex, NormalizeSlug, Decimal, FedoraVersion;
    assert SlotOf(t, allowed) == Some(FEDORA_SLOT);
    var i :| 0 <= i < |picks| && SlotOf(picks[i], allowed) == Some(FEDORA_SLOT);
    var p := picks[i];
    OnlyFedoraRanks(p, allowed);
    assert IsWinner(list, allowed, p);
    var k: nat :| Wins(list, allowed, k) && list[k] == p;
    var j :| 0 <= j < |list| && list[j] == t;
    assert Rank(t) == version;
    assert Rank(list[j]) <= Rank(list[k]);
    assert p in picks;
  }

  lemma {:induction false} SqueezedConcat(a: string, b: string)
    ensures Squeezed(a + b) == Squeezed(a) + Squeezed(b)
  {
    if a == "" {
      assert a + b == b;
    } else {
      assert (a + b)[1..] == a[1..] + b;
      SqueezedConcat(a[1..], b);
    }
  }

  lemma SqueezedOne(c: char)
    ensures Squeezed([c]) == if IsDropped(c) then "" else [Lower(c)]
  {
    assert [c][1..] == "";
  }

  lemma SqueezedAround(a: string, c: char, b: string)
    ensures Squeezed(a + [c] + b) == Squeezed(a) + (if IsDropped(c) then "" else [Lower(c)]) + Squeezed(b)
  {
    SqueezedConcat(a + [c], b);
    SqueezedConcat(a, [c]);
    SqueezedOne(c);
    hide IsDropped, Lower;
  }

  lemma SameSqueezed(x: string, y: string)
    requires Squeezed(x) == Squeezed(y)
    ensures NormalizeSlug(x) == NormalizeSlug(y)
  {
  }

  /** Case makes no difference to a slug. */
  lemma SlugIgnoresCase(a: string, c: char, b: string)
    requires 'A' <= c <= 'Z'
    ensures NormalizeSlug(a + [c] + b) == NormalizeSlug(a + [c - 'A' + 'a'] + b)
  {
    var d := c - 'A' + 'a';
    assert !IsDropped(c) && !IsDropped(d) && Lower(c) == Lower(d);
    hide Squeezed, NormalizeSlug, IsDropped, Lower;
    SqueezedAround(a, c, b);
    SqueezedAround(a, d, b);
    SameSqueezed(a + [c] + b, a + [d] + b);
  }

  /** Nor do dashes, underscores and white space. */
  lemma SlugIgnoresDashes(a: string, c: char, b: string)
    requires c == '-' || c == '_' || MessageText.IsSpace(c)
    ensures NormalizeSlug(a + [c] + b) == NormalizeSlug(a + b)
  {
    assert IsDropped(c);
    hide Squeezed, NormalizeSlug, IsDropped, Lower;
    SqueezedAround(a, c, b);
    SqueezedConcat(a, b);
    assert Squeezed(a) + "" + Squeezed(b) == Squeezed(a) + Squeezed(b);
    SameSqueezed(a + [c] + b, a + b);
  }

  lemma KeptAsItIs(c: char)
    requires 'a' <= c <= 'z' || IsDigit(c)
    ensures !IsDropped(c) && Lower(c) == c
  {
  }

  lemma {:induction false} SqueezedKeeps(slug: string)
    requires forall c :: c in slug ==> 'a' <= c <= 'z' || IsDigit(c)
    ensures Squeezed(slug) == slug
  {
    if slug != "" {
      assert slug[0] in slug;
      assert forall c :: c in slug[1..] ==> c in slug;
      SqueezedKeeps(slug[1..]);
      KeptAsItIs(slug[0]);
      hide IsDropped, Lower;
      assert slug == [slug[0]] + slug[1..];
    }
  }

  /** Lower-case letters and digits are kept, but for the two short names of AlmaLinux. */
  lemma SlugKeeps(slug: string)
    requires forall c :: c in slug ==> 'a' <= c <= 'z' || IsDigit(c)
    ensures NormalizeSlug(slug) == if slug == "alma8" then "almalinux8" else if slug == "alma9" then "almalinux9" else slug
  {
    SqueezedKeeps(slug);
  }
}
