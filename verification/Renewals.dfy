// Renewals of one service, one after the other: src/api/reseller-api.ts:541-544 and 2030-2077.
module Renewals {
  import opened Common
  import opened ResellerDb
  import opened ResellerSaga

  datatype Renewal = Renewal(months: nat, now: nat, request: RequestId)

  /** The months that are priced and counted alike. */
  predicate Listed(months: nat) {
    months in {1, 3, 6, 12}
  }

  /** The renew action from its first read to its commit, when nothing comes between. */
  function Renewed(db: Db, reseller: ResellerId, service: ServiceId, r: Renewal): Result {
    if service !in db.rows || db.rows[service].reseller != reseller then NotFound
    else
      var row := db.rows[service];
      RenewTx(db, reseller, service, row, row.renewalPrice * r.months, Max(r.now, row.expireAt) + RenewedMs(r.months), r.request)
  }

  /** The database behind a list of renewals, or `None` when one of them is refused. */
  function AllRenewed(db: Db, reseller: ResellerId, service: ServiceId, rs: seq<Renewal>): Option<Db>
    decreases |rs|
  {
    if rs == [] then Some(db)
    else
      var first := Renewed(db, reseller, service, rs[0]);
      if first.Saved? then AllRenewed(first.db, reseller, service, rs[1..]) else None
  }

  function Months(rs: seq<Renewal>): nat {
    if rs == [] then 0 else rs[0].months + Months(rs[1..])
  }

  function Expiry(expireAt: nat, rs: seq<Renewal>): nat
    decreases |rs|
  {
    if rs == [] then expireAt else Expiry(Max(rs[0].now, expireAt) + RenewedMs(rs[0].months), rs[1..])
  }

  /** Everything as in `db`, but for one wallet's balance, one row's expiry and the ledger. */
  predicate OnlyRenewed(db: Db, db': Db, wallet: WalletId, service: ServiceId, paid: nat, expireAt: nat)
    requires wallet in db.balances && service in db.rows
  {
    && db'.resellers == db.resellers && db'.nextId == db.nextId
    && db'.balances == db.balances[wallet := db.balances[wallet] - paid]
    && db'.rows == db.rows[service := db.rows[service].(expireAt := expireAt)]
  }

  /** The reseller's service, and the wallet that pays for it. */
  predicate Owns(db: Db, reseller: ResellerId, service: ServiceId, wallet: WalletId) {
    && service in db.rows && db.rows[service].reseller == reseller
    && reseller in db.resellers && db.resellers[reseller].wallet == Some(wallet)
    && wallet in db.balances && db.balances[wallet] >= 0
  }

  lemma RenewOnce(db: Db, reseller: ResellerId, service: ServiceId, wallet: WalletId, r: Renewal)
    requires Owns(db, reseller, service, wallet)
    ensures var row := db.rows[service];
            var result := Renewed(db, reseller, service, r);
            && (result.Saved? <==> db.balances[wallet] >= row.renewalPrice * r.months)
            && (result.Saved? ==>
                  && Owns(result.db, reseller, service, wallet)
                  && OnlyRenewed(db, result.db, wallet, service, row.renewalPrice * r.months,
                                 Max(r.now, row.expireAt) + RenewedMs(r.months)))
  {
    assert db.rows[service].renewalPrice * r.months >= 0;
  }

  lemma Distributes(price: nat, a: nat, b: nat)
    ensures price * (a + b) == price * a + price * b && price * b >= 0
  {
  }

  lemma OnlyRenewedTwice(a: Db, b: Db, c: Db, wallet: WalletId, service: ServiceId, p: nat, q: nat, e: nat, f: nat)
    requires wallet in a.balances && service in a.rows && OnlyRenewed(a, b, wallet, service, p, e)
    requires OnlyRenewed(b, c, wallet, service, q, f)
    ensures OnlyRenewed(a, c, wallet, service, p + q, f)
  {
  }

  /**
   * A list of renewals goes through exactly when the wallet holds the price of all its months. Then that is what it pays, and
   * nothing but the balance, the expiry and the ledger changes.
   */
  lemma {:induction false} CostIsPricePerMonth(db: Db, reseller: ResellerId, service: ServiceId, wallet: WalletId, rs: seq<Renewal>)
    requires Owns(db, reseller, service, wallet)
    ensures var row := db.rows[service];
            var after := AllRenewed(db, reseller, service, rs);
            && (after.Some? <==> db.balances[wallet] >= row.renewalPrice * Months(rs))
            && (after.Some? ==>
                  OnlyRenewed(db, after.value, wallet, service, row.renewalPrice * Months(rs), Expiry(row.expireAt, rs)))
    decreases |rs|
  {
    var row := db.rows[service];
    if rs != [] {
      Distributes(row.renewalPrice, rs[0].months, Months(rs[1..]));
      RenewOnce(db, reseller, service, wallet, rs[0]);
      var first := Renewed(db, reseller, service, rs[0]);
      hide Renewed, RenewedMs;
      if first.Saved? {
        CostIsPricePerMonth(first.db, reseller, service, wallet, rs[1..]);
        var after := AllRenewed(db, reseller, service, rs);
        if after.Some? {
          OnlyRenewedTwice(db, first.db, after.value, wallet, service, row.renewalPrice * rs[0].months,
                           row.renewalPrice * Months(rs[1..]), first.db.rows[service].expireAt, Expiry(row.expireAt, rs));
        }
      }
    }
  }

  /** A renewal adds 30 days for every month paid exactly when the months are listed; otherwise it adds 30 days. */
  lemma PaysForItsDays(months: nat)
    requires months > 0
    ensures RenewedMs(months) == months * MONTH_MS <==> Listed(months)
    ensures !Listed(months) ==> months >= 2 && RenewedMs(months) == MONTH_MS
  {
    if months >= 2 {
      assert months * MONTH_MS >= 2 * MONTH_MS;
    }
  }

  /** Expiry never goes back, and with listed months it moves on by 30 days a month at least. The clock may do as it likes. */
  lemma {:induction false} ExpiryGrows(expireAt: nat, rs: seq<Renewal>)
    ensures Expiry(expireAt, rs) >= expireAt
    ensures (forall r :: r in rs ==> Listed(r.months)) ==> Expiry(expireAt, rs) >= expireAt + MONTH_MS * Months(rs)
    decreases |rs|
  {
    if rs != [] {
      ExpiryGrows(Max(rs[0].now, expireAt) + RenewedMs(rs[0].months), rs[1..]);
      if forall r :: r in rs ==> Listed(r.months) {
        assert Listed(rs[0].months);
        assert forall r :: r in rs[1..] ==> r in rs;
        Distributes(MONTH_MS, rs[0].months, Months(rs[1..]));
      }
    }
  }

  /** Renewals at one instant add 30 days a month to the later of that instant and the old expiry. */
  lemma {:induction false} ExpiryAtOnce(expireAt: nat, rs: seq<Renewal>, now: nat)
    requires rs != [] && forall r :: r in rs ==> Listed(r.months) && r.now == now
    ensures Expiry(expireAt, rs) == Max(now, expireAt) + MONTH_MS * Months(rs)
    decreases |rs|
  {
    assert rs[0] in rs;
    var next := Max(now, expireAt) + RenewedMs(rs[0].months);
    assert forall r :: r in rs[1..] ==> r in rs;
    assert next >= now && RenewedMs(rs[0].months) == rs[0].months * MONTH_MS;
    Distributes(MONTH_MS, rs[0].months, Months(rs[1..]));
    hide RenewedMs, Listed;
    if rs[1..] != [] {
      ExpiryAtOnce(next, rs[1..], now);
    } else {
      assert Months(rs) == rs[0].months;
    }
  }

  /**
   * However a number of months is split into renewals at one instant: either all splits are affordable or none is, and they
   * end with the same balances and the same rows.
   */
  lemma SplitsAreEqual(db: Db, reseller: ResellerId, service: ServiceId, wallet: WalletId, a: seq<Renewal>, b: seq<Renewal>,
                       now: nat)
    requires Owns(db, reseller, service, wallet) && a != [] && b != [] && Months(a) == Months(b)
    requires forall r :: r in a ==> Listed(r.months) && r.now == now
    requires forall r :: r in b ==> Listed(r.months) && r.now == now
    ensures var x, y := AllRenewed(db, reseller, service, a), AllRenewed(db, reseller, service, b);
            && (x.Some? <==> y.Some?)
            && (x.Some? ==> x.value.balances == y.value.balances && x.value.rows == y.value.rows)
  {
    CostIsPricePerMonth(db, reseller, service, wallet, a);
    CostIsPricePerMonth(db, reseller, service, wallet, b);
    ExpiryAtOnce(db.rows[service].expireAt, a, now);
    ExpiryAtOnce(db.rows[service].expireAt, b, now);
  }
}
