// The reseller's side of the database: wallets, rented machines, wallet ledger, and the transactions that touch them
// (src/modules/reseller/services/reseller-billing.ts, src/api/reseller-api.ts, src/api/reseller-api-vm-ops.ts).
// Money is counted in cents, time in milliseconds; a transaction is atomic.
module ResellerDb {
  import opened Common

  type ResellerId = nat
  type WalletId = nat
  type ServiceId = nat
  type VmId = nat
  type RequestId = nat

  /** A row of `Reseller`: the bot user whose balance it spends, if one is linked, and its quota. */
  datatype Reseller = Reseller(wallet: Option<WalletId>, maxVps: nat)

  /** A row of `vdslist`. */
  datatype Row = Row(vmid: VmId, reseller: ResellerId, renewalPrice: nat, extraIpv4: nat, expireAt: nat)

  datatype Purpose = ServiceCreate | ServiceRenew | ExtraIpv4

  /** Everything that ever moved a wallet, in commit order; the debits are the rows of `reseller_wallet_transactions`. */
  datatype Movement =
    | TopUp(wallet: WalletId, amount: nat)
    | Debit(wallet: WalletId, amount: nat, balanceAfter: int, purpose: Purpose, service: ServiceId, request: RequestId)

  datatype Db = Db(
    resellers: map<ResellerId, Reseller>,
    balances: map<WalletId, int>,
    rows: map<ServiceId, Row>,
    nextId: ServiceId,
    history: seq<Movement>)

  const MAX_EXTRA_IPV4: nat := 1

  datatype BillingError = ResellerNotFound | TelegramNotLinked | UserNotFound | InsufficientBalance

  datatype Wallet = Funds(wallet: WalletId, balance: int) | NoFunds(error: BillingError)

  /** `assertResellerCanAfford`, and the checks `debitResellerBalance` makes before it deducts. */
  function Afford(db: Db, reseller: ResellerId, amount: nat): Wallet {
    if reseller !in db.resellers then NoFunds(ResellerNotFound)
    else if db.resellers[reseller].wallet.None? then NoFunds(TelegramNotLinked)
    else
      var w := db.resellers[reseller].wallet.value;
      if w !in db.balances then NoFunds(UserNotFound)
      else if db.balances[w] < amount then NoFunds(InsufficientBalance)
      else Funds(w, db.balances[w])
  }

  datatype Result = Saved(db: Db, service: ServiceId) | BillingFailed(error: BillingError) | Duplicate | NotFound | LimitReached

  /** `debitResellerBalance` with its ledger entry. */
  function Debited(db: Db, reseller: ResellerId, amount: nat, purpose: Purpose, service: ServiceId, request: RequestId): Db
    requires Afford(db, reseller, amount).Funds?
  {
    var Funds(w, balance) := Afford(db, reseller, amount);
    db.(balances := db.balances[w := balance - amount],
        history := db.history + [Debit(w, amount, balance - amount, purpose, service, request)])
  }

  predicate Registered(db: Db, vmid: VmId) {
    exists id :: id in db.rows && db.rows[id].vmid == vmid
  }

  /** The transaction of the create handler: debit, insert the service (its `vdsId` is unique), enter the ledger. */
  function CreateTx(db: Db, reseller: ResellerId, price: nat, vmid: VmId, expireAt: nat, request: RequestId): Result {
    var funds := Afford(db, reseller, price);
    if funds.NoFunds? then BillingFailed(funds.error)
    else if Registered(db, vmid) then Duplicate
    else
      var id := db.nextId;
      Saved(Debited(db, reseller, price, ServiceCreate, id, request)
              .(rows := db.rows[id := Row(vmid, reseller, price, 0, expireAt)], nextId := id + 1), id)
  }

  /** The transaction of `purchaseResellerExtraIpv4`. */
  function ExtraIpv4Tx(db: Db, reseller: ResellerId, service: ServiceId, monthly: nat, request: RequestId): Result {
    if service !in db.rows || db.rows[service].reseller != reseller then NotFound
    else if db.rows[service].extraIpv4 >= MAX_EXTRA_IPV4 then LimitReached
    else
      var funds := Afford(db, reseller, monthly);
      if funds.NoFunds? then BillingFailed(funds.error)
      else
        var row := db.rows[service];
        Saved(Debited(db, reseller, monthly, ExtraIpv4, service, request)
                .(rows := db.rows[service := row.(extraIpv4 := row.extraIpv4 + 1, renewalPrice := row.renewalPrice + monthly)]),
              service)
  }

  /** The transaction of the renew action. It saves the entity the handler read earlier, all columns of it. */
  function RenewTx(db: Db, reseller: ResellerId, service: ServiceId, snapshot: Row, amount: nat, newExpire: nat, request: RequestId)
    : Result
  {
    var funds := Afford(db, reseller, amount);
    if funds.NoFunds? then BillingFailed(funds.error)
    else
      Saved(Debited(db, reseller, amount, ServiceRenew, service, request)
              .(rows := db.rows[service := snapshot.(expireAt := newExpire)]), service)
  }

  /** A settled payment of the bot user. */
  function Credited(db: Db, wallet: WalletId, amount: nat): Db
    requires wallet in db.balances
  {
    db.(balances := db.balances[wallet := db.balances[wallet] + amount], history := db.history + [TopUp(wallet, amount)])
  }

  // ---------------------------------------------------------------- why a transaction is refused

  /** The user whose balance the reseller spends, if the reseller exists and has one. */
  function LinkedUser(db: Db, reseller: ResellerId): Option<WalletId> {
    if reseller in db.resellers then db.resellers[reseller].wallet else None
  }

  /** Exactly when each error is reported, and what a wallet that covers the amount is. */
  lemma WhyUnaffordable(db: Db, reseller: ResellerId, amount: nat)
    ensures var a, user := Afford(db, reseller, amount), LinkedUser(db, reseller);
            && (a == NoFunds(ResellerNotFound) <==> reseller !in db.resellers)
            && (a == NoFunds(TelegramNotLinked) <==> reseller in db.resellers && user.None?)
            && (a == NoFunds(UserNotFound) <==> user.Some? && user.value !in db.balances)
            && (a == NoFunds(InsufficientBalance) <==> user.Some? && user.value in db.balances && db.balances[user.value] < amount)
            && (a.Funds? ==> user == Some(a.wallet) && a.wallet in db.balances && a.balance == db.balances[a.wallet] >= amount)
  {
  }

  /** An address is refused for a service that is not the reseller's, then for one that has its address, then for want of money. */
  lemma WhyNoAddress(db: Db, reseller: ResellerId, service: ServiceId, monthly: nat, request: RequestId)
    ensures var result := ExtraIpv4Tx(db, reseller, service, monthly, request);
            var own := service in db.rows && db.rows[service].reseller == reseller;
            && (result == NotFound <==> !own)
            && (result == LimitReached <==> own && db.rows[service].extraIpv4 >= 1)
            && (forall error :: result == BillingFailed(error) <==>
                  own && db.rows[service].extraIpv4 == 0 && Afford(db, reseller, monthly) == NoFunds(error))
            && (result.Saved? ==> result.service == service)
            && result != Duplicate
  {
  }

  /** A creation is refused for want of money, and then for a machine that has a row; a renewal for want of money only. */
  lemma WhyNotBooked(db: Db, reseller: ResellerId, price: nat, vmid: VmId, expireAt: nat, request: RequestId, service: ServiceId, row: Row)
    ensures var result := CreateTx(db, reseller, price, vmid, expireAt, request);
            && (forall error :: result == BillingFailed(error) <==> Afford(db, reseller, price) == NoFunds(error))
            && (result == Duplicate <==> Afford(db, reseller, price).Funds? && exists id :: id in db.rows && db.rows[id].vmid == vmid)
            && result != NotFound && result != LimitReached
    ensures var result := RenewTx(db, reseller, service, row, price, expireAt, request);
            && (forall error :: result == BillingFailed(error) <==> Afford(db, reseller, price) == NoFunds(error))
            && (result.BillingFailed? || result.Saved?)
  {
  }

  // ---------------------------------------------------------------- the ledger adds up

  function Delta(m: Movement, wallet: WalletId): int {
    if m.wallet != wallet then 0
    else if m.TopUp? then m.amount
    else 0 - m.amount
  }

  /** A wallet's balance after the movements in `history`. */
  function BalanceAfter(opening: int, history: seq<Movement>, wallet: WalletId): int {
    if history == [] then opening
    else
      var n := |history| - 1;
      BalanceAfter(opening, history[..n], wallet) + Delta(history[n], wallet)
  }

  /**
   * Wallets hold exactly what the movements leave in them, never less than nothing, and each ledger entry carries the
   * balance its own debit left.
   */
  ghost predicate LedgerAddsUp(db: Db, opening: map<WalletId, int>) {
    && db.balances.Keys == opening.Keys
    && (forall w :: w in opening ==> db.balances[w] == BalanceAfter(opening[w], db.history, w))
    && (forall w :: w in db.balances ==> db.balances[w] >= 0)
    && (forall i :: 0 <= i < |db.history| && db.history[i].Debit? ==> EntryIsRight(db.history, i, opening))
  }

  ghost predicate EntryIsRight(history: seq<Movement>, i: nat, opening: map<WalletId, int>)
    requires i < |history| && history[i].Debit?
  {
    var w := history[i].wallet;
    w in opening && history[i].balanceAfter == BalanceAfter(opening[w], history[..i + 1], w) >= 0
  }

  lemma AppendedBalance(opening: int, history: seq<Movement>, m: Movement, wallet: WalletId)
    ensures BalanceAfter(opening, history + [m], wallet) == BalanceAfter(opening, history, wallet) + Delta(m, wallet)
  {
    assert (history + [m])[..|history|] == history;
  }

  lemma EntriesStayRight(history: seq<Movement>, m: Movement, opening: map<WalletId, int>)
    requires forall i :: 0 <= i < |history| && history[i].Debit? ==> EntryIsRight(history, i, opening)
    requires m.Debit? ==> m.wallet in opening
                          && m.balanceAfter == BalanceAfter(opening[m.wallet], history, m.wallet) - m.amount >= 0
    ensures var h := history + [m];
            forall i :: 0 <= i < |h| && h[i].Debit? ==> EntryIsRight(h, i, opening)
  {
    var h := history + [m];
    forall i | 0 <= i < |h| && h[i].Debit? ensures EntryIsRight(h, i, opening) {
      if i < |history| {
        assert EntryIsRight(history, i, opening);
        assert h[..i + 1] == history[..i + 1];
      } else {
        assert h[..i + 1] == h;
        AppendedBalance(opening[m.wallet], history, m, m.wallet);
      }
    }
  }

  lemma DebitAddsUp(db: Db, opening: map<WalletId, int>, reseller: ResellerId, amount: nat, purpose: Purpose,
                    service: ServiceId, request: RequestId)
    requires LedgerAddsUp(db, opening) && Afford(db, reseller, amount).Funds?
    ensures LedgerAddsUp(Debited(db, reseller, amount, purpose, service, request), opening)
  {
    var Funds(w, balance) := Afford(db, reseller, amount);
    var m := Debit(w, amount, balance - amount, purpose, service, request);
    var after := Debited(db, reseller, amount, purpose, service, request);
    assert after.history == db.history + [m] && after.balances == db.balances[w := balance - amount];
    hide Afford, Debited, EntryIsRight;
    EntriesStayRight(db.history, m, opening);
    forall v | v in opening ensures after.balances[v] == BalanceAfter(opening[v], after.history, v) {
      AppendedBalance(opening[v], db.history, m, v);
    }
  }

  lemma CreditAddsUp(db: Db, opening: map<WalletId, int>, wallet: WalletId, amount: nat)
    requires LedgerAddsUp(db, opening) && wallet in db.balances
    ensures LedgerAddsUp(Credited(db, wallet, amount), opening)
  {
    var m := TopUp(wallet, amount);
    EntriesStayRight(db.history, m, opening);
    forall v | v in opening { AppendedBalance(opening[v], db.history, m, v); }
  }

  // ---------------------------------------------------------------- charges

  /** How often the service was charged for this purpose. */
  function Charges(history: seq<Movement>, service: ServiceId, purpose: Purpose): nat {
    if history == [] then 0
    else
      var m := history[|history| - 1];
      Charges(history[..|history| - 1], service, purpose)
      + (if m.Debit? && m.service == service && m.purpose == purpose then 1 else 0)
  }

  /** How much the service was charged for this purpose. */
  function Charged(history: seq<Movement>, service: ServiceId, purpose: Purpose): nat {
    if history == [] then 0
    else
      var m := history[|history| - 1];
      Charged(history[..|history| - 1], service, purpose)
      + (if m.Debit? && m.service == service && m.purpose == purpose then m.amount else 0)
  }

  /** How often this request was charged. */
  function ChargesBy(history: seq<Movement>, request: RequestId): nat {
    if history == [] then 0
    else
      var m := history[|history| - 1];
      ChargesBy(history[..|history| - 1], request) + (if m.Debit? && m.request == request then 1 else 0)
  }

  lemma AppendedCharges(history: seq<Movement>, m: Movement, service: ServiceId, purpose: Purpose)
    ensures var hit := m.Debit? && m.service == service && m.purpose == purpose;
            && Charges(history + [m], service, purpose) == Charges(history, service, purpose) + (if hit then 1 else 0)
            && Charged(history + [m], service, purpose) == Charged(history, service, purpose) + (if hit then m.amount else 0)
  {
    assert (history + [m])[..|history|] == history;
  }

  lemma AppendedChargesBy(history: seq<Movement>, m: Movement, request: RequestId)
    ensures ChargesBy(history + [m], request) == ChargesBy(history, request) + (if m.Debit? && m.request == request then 1 else 0)
  {
    assert (history + [m])[..|history|] == history;
  }

  // ---------------------------------------------------------------- the database as the handlers use it

  class Database {
    const resellers: map<ResellerId, Reseller>
    var balances: map<WalletId, int>
    var rows: map<ServiceId, Row>
    var nextId: ServiceId
    var history: seq<Movement>

    ghost function View(): Db
      reads this
    {
      Db(resellers, balances, rows, nextId, history)
    }

    constructor (resellers: map<ResellerId, Reseller>, balances: map<WalletId, int>)
      ensures View() == Db(resellers, balances, map[], 0, [])
    {
      this.resellers := resellers;
      this.balances := balances;
      rows, nextId, history := map[], 0, [];
    }

    /** `debitResellerBalance`: nothing changes unless the wallet covers the amount. */
    method DebitResellerBalance(reseller: ResellerId, amount: nat) returns (funds: Wallet)
      modifies this`balances
      ensures old(Afford(View(), reseller, amount)).NoFunds? ==> funds == old(Afford(View(), reseller, amount)) && balances == old(balances)
      ensures old(Afford(View(), reseller, amount)).Funds? ==>
                && funds == Funds(old(Afford(View(), reseller, amount)).wallet, old(Afford(View(), reseller, amount)).balance - amount)
                && balances == old(balances)[funds.wallet := funds.balance]
    {
      if reseller !in resellers {
        return NoFunds(ResellerNotFound);
      }
      if resellers[reseller].wallet.None? {
        return NoFunds(TelegramNotLinked);
      }
      var user := resellers[reseller].wallet.value;
      if user !in balances {
        return NoFunds(UserNotFound);
      }
      if balances[user] < amount {
        return NoFunds(InsufficientBalance);
      }
      balances := balances[user := balances[user] - amount];
      return Funds(user, balances[user]);
    }

    method RecordDebit(wallet: WalletId, amount: nat, balanceAfter: int, purpose: Purpose, service: ServiceId, request: RequestId)
      modifies this`history
      ensures history == old(history) + [Debit(wallet, amount, balanceAfter, purpose, service, request)]
    {
      history := history + [Debit(wallet, amount, balanceAfter, purpose, service, request)];
    }

    /** Is there a row with this machine? */
    method FindByVmid(vmid: VmId) returns (found: bool)
      ensures found == Registered(View(), vmid)
    {
      var ids := rows.Keys;
      found := false;
      while ids != {}
        invariant ids <= rows.Keys
        invariant found <==> exists id :: id in rows.Keys - ids && rows[id].vmid == vmid
        decreases ids
      {
        var id :| id in ids;
        ids := ids - {id};
        if rows[id].vmid == vmid {
          found := true;
        }
      }
    }

    method CommitCreate(reseller: ResellerId, price: nat, vmid: VmId, expireAt: nat, request: RequestId)
      returns (result: Result)
      modifies this
      ensures result == CreateTx(old(View()), reseller, price, vmid, expireAt, request)
      ensures View() == if result.Saved? then result.db else old(View())
    {
      var balancesBefore := balances;
      var taken := FindByVmid(vmid);
      var debit := DebitResellerBalance(reseller, price);
      if debit.NoFunds? {
        return BillingFailed(debit.error);
      }
      if taken {
        balances := balancesBefore;
        return Duplicate;
      }
      var id := nextId;
      rows := rows[id := Row(vmid, reseller, price, 0, expireAt)];
      nextId := id + 1;
      RecordDebit(debit.wallet, price, debit.balance, ServiceCreate, id, request);
      return Saved(Db(resellers, balances, rows, nextId, history), id);
    }

    method CommitExtraIpv4(reseller: ResellerId, service: ServiceId, monthly: nat, request: RequestId) returns (result: Result)
      modifies this
      ensures result == ExtraIpv4Tx(old(View()), reseller, service, monthly, request)
      ensures View() == if result.Saved? then result.db else old(View())
    {
      if service !in rows || rows[service].reseller != reseller {
        return NotFound;
      }
      var row := rows[service];
      if row.extraIpv4 >= MAX_EXTRA_IPV4 {
        return LimitReached;
      }
      var debit := DebitResellerBalance(reseller, monthly);
      if debit.NoFunds? {
        return BillingFailed(debit.error);
      }
      RecordDebit(debit.wallet, monthly, debit.balance, ExtraIpv4, service, request);
      row := row.(extraIpv4 := row.extraIpv4 + 1);
      row := row.(renewalPrice := row.renewalPrice + monthly);
      rows := rows[service := row];
      return Saved(Db(resellers, balances, rows, nextId, history), service);
    }

    method CommitRenew(reseller: ResellerId, service: ServiceId, snapshot: Row, amount: nat, newExpire: nat, request: RequestId)
      returns (result: Result)
      modifies this
      ensures result == RenewTx(old(View()), reseller, service, snapshot, amount, newExpire, request)
      ensures View() == if result.Saved? then result.db else old(View())
    {
      var debit := DebitResellerBalance(reseller, amount);
      if debit.NoFunds? {
        return BillingFailed(debit.error);
      }
      rows := rows[service := snapshot.(expireAt := newExpire)];
      RecordDebit(debit.wallet, amount, debit.balance, ServiceRenew, service, request);
      return Saved(Db(resellers, balances, rows, nextId, history), service);
    }
  }
}
