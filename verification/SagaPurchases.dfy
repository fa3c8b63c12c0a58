// Keys of purchases: what a second charge takes, besides a claim that has run out
// (src/api/reseller-api.ts:1549-1608, src/api/reseller-api-vm-ops.ts:104-197).
module SagaPurchases {
  import opened Common
  import opened IdempotencyStore
  import opened ResellerDb
  import opened ResellerSaga
  import opened SagaServices
  import opened SagaCharges
  import opened SagaKeys
  import opened SagaBoundaries
  import opened SagaTakeovers

  // ---------------------------------------------------------------- money and room

  /** The user behind the reseller's wallet pays money in. */
  lemma TopsUp(s: State, steps: seq<Step>, t: State, reseller: ResellerId, amount: nat) returns (steps': seq<Step>, t': State)
    requires Leads(s, steps, t) && Afford(t.db, reseller, 0).Funds?
    ensures Leads(s, steps', t') && t' == t.(db := t'.db)
    ensures t'.db == t.db.(balances := t'.db.balances, history := t'.db.history)
    ensures Afford(t'.db, reseller, amount).Funds? && Afford(t'.db, reseller, 0).Funds?
  {
    steps', t' := Extend(s, steps, t, Pay(Afford(t.db, reseller, 0).wallet, amount));
  }

  /** The purchases of the service by this reseller can be charged: it is the reseller's, and an address may be added to it. */
  predicate HasRoom(t: State, service: ServiceId, reseller: ResellerId) {
    && service in t.db.rows && t.db.rows[service].reseller == reseller && t.db.rows[service].extraIpv4 < MAX_EXTRA_IPV4
    && Afford(t.db, reseller, 0).Funds?
  }

  /** Every request but perhaps `id` is as it was, and so is the store. */
  predicate KeepsOthers(t: State, t': State, id: RequestId) {
    && t'.requests.Keys == t.requests.Keys && t'.records == t.records && t'.now == t.now
    && forall a :: a in t.requests && a != id ==> t'.requests[a] == t.requests[a]
  }

  /** The request is a renewal of this reseller's own service. */
  predicate RenewsOwn(t: State, id: RequestId, service: ServiceId, reseller: ResellerId) {
    && id in t.requests && HoldsRoom(t.requests[id], service) && t.requests[id].reseller == reseller
    && t.requests[id].phase.snapshot.reseller == reseller
    && service in t.db.rows && Afford(t.db, reseller, 0).Funds?
  }

  /** A renewal with an old row takes the address of a service back. */
  lemma SavesOldRow(s: State, steps: seq<Step>, t: State, id: RequestId, service: ServiceId, reseller: ResellerId)
    returns (steps': seq<Step>, t': State)
    requires Leads(s, steps, t) && RenewsOwn(t, id, service, reseller) && t.requests[id].phase.Priced?
    ensures Leads(s, steps', t') && HasRoom(t', service, reseller) && KeepsOthers(t, t', id)
  {
    hide Leads;
    var u: State;
    steps', u := TopsUp(s, steps, t, reseller, t.requests[id].phase.amount);
    steps', t' := RenewCommits(s, steps', u, id);
  }

  lemma RenewalIsPriced(s: State, steps: seq<Step>, t: State, id: RequestId, service: ServiceId, reseller: ResellerId)
    returns (steps': seq<Step>, t': State)
    requires Leads(s, steps, t) && RenewsOwn(t, id, service, reseller) && t.requests[id].phase.Loaded?
    ensures Leads(s, steps', t') && RenewsOwn(t', id, service, reseller) && t'.requests[id].phase.Priced?
    ensures KeepsOthers(t, t', id)
  {
    var r := t.requests[id];
    hide Leads;
    var u: State;
    steps', u := TopsUp(s, steps, t, reseller, r.phase.snapshot.renewalPrice * r.job.months);
    steps', t' := Extend(s, steps', u, CheckFunds(id));
  }

  /** Requests with a key are as they were, and so is the store; none of the ids in `unused` was used. */
  predicate KeepsKeyed(t: State, t': State, unused: set<RequestId>) {
    && t'.records == t.records && t'.now == t.now && t'.requests.Keys !! unused
    && forall a :: a in t.requests && t.requests[a].key.Some? ==> a in t'.requests && t'.requests[a] == t.requests[a]
  }

  /** Unless the key is sealed, a run leads to a state in which an address may be added to the service. */
  lemma MakesRoom(s: State, key: Key, unused: set<RequestId>) returns (steps: seq<Step>, t: State)
    requires ServicesInv(s) && RequestsFit(s)
    requires key.route.Ipv4Route? && key.route.service in s.db.rows && !Sealed(s, key)
    requires Afford(s.db, key.reseller, 0).Funds? && s.requests.Keys !! unused
    ensures Leads(s, steps, t) && HasRoom(t, key.route.service, key.reseller) && KeepsKeyed(s, t, unused)
  {
    var service := key.route.service;
    assert Leads(s, [], s);
    steps, t := [], s;
    if s.db.rows[service].extraIpv4 >= MAX_EXTRA_IPV4 {
      var id :| id in s.requests && HoldsRoom(s.requests[id], service);
      assert SnapshotFits(s, s.requests[id], s.requests[id].phase.snapshot);
      assert s.requests[id].key.None?;
      assert RenewsOwn(s, id, service, key.reseller);
      hide Leads, ServicesInv, RequestsFit, HoldsRoom, RenewsOwn, HasRoom;
      if s.requests[id].phase.Loaded? {
        steps, t := RenewalIsPriced(s, steps, t, id, service, key.reseller);
      }
      steps, t := SavesOldRow(s, steps, t, id, service, key.reseller);
    }
  }

  // ---------------------------------------------------------------- a service that does not exist yet

  /** The reseller may have any number of services. */
  predicate Unlimited(db: Db, reseller: ResellerId) {
    reseller in db.resellers && db.resellers[reseller].maxVps == 0
  }

  lemma {:induction false} SomeOther(xs: set<nat>) returns (n: nat)
    ensures forall x :: x in xs ==> x < n
  {
    n := 0;
    if x :| x in xs {
      var m := SomeOther(xs - {x});
      n := Max(m, x + 1);
      assert forall y :: y in xs ==> y == x || y in xs - {x};
    }
  }

  /** The reseller creates a service. */
  lemma ServiceIsCreated(s: State, steps: seq<Step>, t: State, id: RequestId, reseller: ResellerId, price: nat)
    returns (steps': seq<Step>, t': State)
    requires Leads(s, steps, t) && id !in t.requests && Unlimited(t.db, reseller) && Afford(t.db, reseller, 0).Funds?
    ensures Leads(s, steps', t') && t'.records == t.records && t'.now == t.now
    ensures id in t'.requests && t'.requests == t.requests[id := t'.requests[id]]
    ensures t'.db.resellers == t.db.resellers && t'.db.nextId == t.db.nextId + 1 && Afford(t'.db, reseller, 0).Funds?
    ensures t'.db.rows.Keys == t.db.rows.Keys + {t.db.nextId}
    ensures var row := t'.db.rows[t.db.nextId]; row.reseller == reseller && row.extraIpv4 == 0
  {
    hide Leads;
    var vmids := set k | k in t.db.rows :: t.db.rows[k].vmid;
    var v := SomeOther(t.live + vmids);
    assert !Registered(t.db, v) by {
      assert forall k :: k in t.db.rows ==> t.db.rows[k].vmid in vmids;
    }
    var u, w: State;
    steps', u := TopsUp(s, steps, t, reseller, price);
    steps', w := CreateGetsReady(s, steps', u, id, reseller, None, "", price, v);
    steps', t' := CreateCommits(s, steps', w, id);
  }

  /** A service whose id has not been given out comes to be the reseller's, one creation after the other. */
  lemma {:induction false} ServiceArrives(s: State, steps: seq<Step>, t: State, service: ServiceId, reseller: ResellerId, price: nat,
                                          unused: set<RequestId>) returns (steps': seq<Step>, t': State)
    requires Leads(s, steps, t) && t.db.nextId <= service && Unlimited(t.db, reseller) && Afford(t.db, reseller, 0).Funds?
    requires t.requests.Keys !! unused
    ensures Leads(s, steps', t') && HasRoom(t', service, reseller) && KeepsKeyed(t, t', unused)
    decreases service - t.db.nextId
  {
    hide Leads, Afford;
    var id := SomeOther(t.requests.Keys + unused);
    var u: State;
    steps', u := ServiceIsCreated(s, steps, t, id, reseller, price);
    if t.db.nextId == service {
      t' := u;
    } else {
      steps', t' := ServiceArrives(s, steps', u, service, reseller, price, unused);
    }
  }

  // ---------------------------------------------------------------- two charges

  /** The purchase is about to be charged. */
  predicate IsBuying(t: State, a: RequestId, key: Key) {
    && key.route.Ipv4Route? && a in t.requests && t.requests[a].phase.HasIpv4? && t.requests[a].key == Some(key)
    && t.requests[a].reseller == key.reseller && t.requests[a].job == BuyIpv4(key.route.service)
  }

  /** A new purchase with the key gets as far as its transaction when nothing holds the key. */
  lemma BuyerEnters(s: State, steps: seq<Step>, t: State, b: RequestId, key: Key, hash: Hash) returns (steps': seq<Step>, t': State)
    requires Leads(s, steps, t) && key.route.Ipv4Route? && HasRoom(t, key.route.service, key.reseller)
    requires b !in t.requests && !Held(t.records, key, t.now)
    ensures Leads(s, steps', t') && HasRoom(t', key.route.service, key.reseller)
    ensures IsBuying(t', b, key) && t'.requests == t.requests[b := t'.requests[b]] && t'.now == t.now
    ensures t'.records == Claimed(t.records, key, hash, t.now, t.ttl)
  {
    hide Leads, Claimed;
    var u: State;
    steps', u := TopsUp(s, steps, t, key.reseller, t.monthly);
    steps', t' := BuyGetsReady(s, steps', u, b, key.route.service, Some(key), hash);
  }

  /** The purchase is charged. */
  lemma BuyerPays(s: State, steps: seq<Step>, t: State, b: RequestId, key: Key) returns (steps': seq<Step>, t': State)
    requires Leads(s, steps, t) && IsBuying(t, b, key) && HasRoom(t, key.route.service, key.reseller)
    ensures Leads(s, steps', t') && Paid(t', b, key) && t'.requests == t.requests[b := t'.requests[b]]
    ensures t'.records == t.records && t'.now == t.now
    ensures var service := key.route.service;
            service in t'.db.rows && t'.db.rows[service].reseller == key.reseller && Afford(t'.db, key.reseller, 0).Funds?
  {
    hide Leads;
    var u: State;
    steps', u := TopsUp(s, steps, t, key.reseller, t.monthly);
    steps', t' := BuyCommits(s, steps', u, b);
  }

  /** A renewal reads the row, one purchase is charged, the renewal saves what it read, and the other is charged too. */
  lemma BothPay(s: State, steps: seq<Step>, t: State, a: RequestId, b: RequestId, r: RequestId, key: Key)
    returns (steps': seq<Step>, t': State)
    requires Leads(s, steps, t) && IsBuying(t, a, key) && IsBuying(t, b, key) && a != b && r !in t.requests
    requires HasRoom(t, key.route.service, key.reseller)
    ensures Leads(s, steps', t') && Paid(t', a, key) && Paid(t', b, key)
  {
    var service := key.route.service;
    hide Leads;
    var u, v, w, x: State;
    steps', u := TopsUp(s, steps, t, key.reseller, t.db.rows[service].renewalPrice);
    steps', v := RenewGetsReady(s, steps', u, r, service, 1);
    assert IsBuying(v, a, key) && IsBuying(v, b, key) && HasRoom(v, service, key.reseller);
    assert RenewsOwn(v, r, service, key.reseller);
    steps', w := BuyerPays(s, steps', v, a, key);
    assert RenewsOwn(w, r, service, key.reseller) && IsBuying(w, b, key);
    hide RenewsOwn, HasRoom;
    steps', x := SavesOldRow(s, steps', w, r, service, key.reseller);
    assert IsBuying(x, b, key) && Paid(x, a, key);
    steps', t' := BuyerPays(s, steps', x, b, key);
  }

  /** A purchase that gives up gives back the claim of the one that took over with the same body, so a third one is let in. */
  lemma ReleaseLetsBuyerIn(s: State, steps: seq<Step>, t: State, a: RequestId, b: RequestId, c: RequestId, key: Key)
    returns (steps': seq<Step>, t': State)
    requires Leads(s, steps, t) && key.route.Ipv4Route? && HasRoom(t, key.route.service, key.reseller)
    requires a in t.requests && t.requests[a].phase.Releasing? && t.requests[a].key == Some(key)
    requires b != c && b !in t.requests && c !in t.requests && !Held(t.records, key, t.now)
    ensures Leads(s, steps', t') && HasRoom(t', key.route.service, key.reseller)
    ensures IsBuying(t', b, key) && IsBuying(t', c, key) && t'.requests.Keys == t.requests.Keys + {b, c}
  {
    hide Leads, HasRoom;
    var r := t.requests[a];
    var u, v: State;
    steps', u := BuyerEnters(s, steps, t, b, key, r.hash);
    assert u.requests[a] == r;
    steps', v := Extend(s, steps', u, Release(a));
    assert v == Move(u, a, Finished(Refused)).(records := u.records - {key});
    assert HasRoom(v, key.route.service, key.reseller) by { SameRoom(u, v, key.route.service, key.reseller); }
    steps', t' := BuyerEnters(s, steps', v, c, key, r.hash);
  }

  lemma SameRoom(t: State, t': State, service: ServiceId, reseller: ResellerId)
    requires HasRoom(t, service, reseller) && t'.db == t.db
    ensures HasRoom(t', service, reseller)
  {
  }

  /** A purchase at work gives up, and two newcomers are charged. */
  lemma BuyerIsReplaced(s: State, steps: seq<Step>, t: State, a: RequestId, b: RequestId, c: RequestId, r: RequestId, key: Key)
    returns (steps': seq<Step>, t': State)
    requires Leads(s, steps, t) && key.route.Ipv4Route? && HasRoom(t, key.route.service, key.reseller)
    requires a in t.requests && CanGiveUp(t.requests[a]) && t.requests[a].key == Some(key) && !Held(t.records, key, t.now)
    requires b !in t.requests && c !in t.requests && r !in t.requests && b != c && b != r && c != r
    ensures Leads(s, steps', t') && Paid(t', b, key) && Paid(t', c, key)
  {
    hide Leads, HasRoom, CanGiveUp;
    var u, v: State;
    steps', u := GivesUp(s, steps, t, a);
    assert HasRoom(u, key.route.service, key.reseller) by { SameRoom(t, u, key.route.service, key.reseller); }
    steps', v := ReleaseLetsBuyerIn(s, steps', u, a, b, c, key);
    steps', t' := BothPay(s, steps', v, b, c, r, key);
  }

  /**
   * From every state in which the record of a purchase's key has run out while a request with the key was charged or is still at
   * work, in whatever phase, and the key is not sealed: a run leads to two charged purchases with that key. All it takes is a
   * reseller with a wallet, who may still create the service if it does not exist.
   */
  lemma LapsedPurchaseChargesTwice(s: State, a: RequestId, b: RequestId, c: RequestId, r: RequestId, key: Key)
    returns (steps: seq<Step>, x: RequestId, y: RequestId)
    requires ServicesInv(s) && RequestsFit(s) && PhasesFit(s)
    requires key.route.Ipv4Route? && !Sealed(s, key) && (key.route.service in s.db.rows || Unlimited(s.db, key.reseller))
    requires Lapsed(s.records, key, s.now) && (Holds(s, a, key) || Paid(s, a, key))
    requires b !in s.requests && c !in s.requests && r !in s.requests && b != c && b != r && c != r
    requires Afford(s.db, key.reseller, 0).Funds?
    ensures CanRun(s, steps) && x != y && Paid(Run(s, steps), x, key) && Paid(Run(s, steps), y, key)
  {
    var t, u, v: State;
    assert Leads(s, [], s);
    if key.route.service in s.db.rows {
      steps, t := MakesRoom(s, key, {b, c, r});
    } else {
      steps, t := ServiceArrives(s, [], s, key.route.service, key.reseller, 1, {b, c, r});
    }
    assert b !in t.requests && c !in t.requests && r !in t.requests;
    assert t.requests[a] == s.requests[a];
    assert ChargeFitsPhase(t.requests[a]) && PhaseFitsJob(t.requests[a]) && KeyFits(Some(key), t.requests[a].reseller, t.requests[a].job);
    hide Leads, HasRoom, ServicesInv, RequestsFit, PhasesFit, Sealed;
    y := b;
    if t.requests[a].charge.Some? || t.requests[a].phase.HasIpv4? {
      x := a;
      steps, u := BuyerEnters(s, steps, t, b, key, "");
      if t.requests[a].charge.Some? {
        steps, v := BuyerPays(s, steps, u, b, key);
      } else {
        steps, v := BothPay(s, steps, u, a, b, r, key);
      }
    } else {
      x := c;
      steps, v := BuyerIsReplaced(s, steps, t, a, b, c, r, key);
    }
    LeadsIs(s, steps, v);
  }
}
