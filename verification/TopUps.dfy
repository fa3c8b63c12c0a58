// Rows of top-ups and users, and the one path that credits a paid top-up: src/domain/billing/settle-top-up.ts.
// Amounts and balances are in cents.
module TopUps {
  import opened Common

  type TopUpId = nat
  type UserId = int

  datatype Status = Created | Completed | Expired

  datatype TopUp = TopUp(status: Status, owner: UserId, amount: nat, creditedAt: Option<int>)

  datatype Db = Db(topUps: map<TopUpId, TopUp>, balances: map<UserId, int>)

  /** `null`, a result with `newlyCredited` false, and one with `newlyCredited` true. */
  datatype Outcome = Nothing | Known | Newly

  function Marked(db: Db, id: TopUpId, now: int): Db
    requires id in db.topUps
  {
    db.(topUps := db.topUps[id := db.topUps[id].(creditedAt := Some(now))])
  }

  /** `creditOnly`, and the end of `creditAndFinish`: mark the row if it is not marked, then pay. */
  function CreditOnly(db: Db, id: TopUpId, user: UserId, amount: nat, now: int): (Db, Outcome)
    requires id in db.topUps && user in db.balances
  {
    if db.topUps[id].creditedAt.Some? then (db, Known)
    else (Marked(db, id, now).(balances := db.balances[user := db.balances[user] + amount]), Newly)
  }

  /** The transaction, when its first statement has read `snapshot` and the rest of it finds `db`. */
  function Settled(db: Db, id: TopUpId, snapshot: TopUp, now: int): (Db, Outcome)
    requires id in db.topUps
  {
    if snapshot.owner !in db.balances then (db, Nothing)
    else if snapshot.creditedAt.Some? then (db, Known)
    else match snapshot.status
      case Created =>
        if db.topUps[id].status == Created then
          CreditOnly(db.(topUps := db.topUps[id := db.topUps[id].(status := Completed)]), id, snapshot.owner, snapshot.amount, now)
        else if db.topUps[id].creditedAt.Some? then (db, Known)
        else CreditOnly(db, id, snapshot.owner, snapshot.amount, now)
      case Completed => CreditOnly(db, id, snapshot.owner, snapshot.amount, now)
      case Expired => (db, Nothing)
  }

  /** Exactly when a settlement pays, and how much. It never looks at a status that changed after its first statement. */
  lemma PaysWhenUnmarked(db: Db, id: TopUpId, snapshot: TopUp, now: int)
    requires id in db.topUps
    ensures var (after, outcome) := Settled(db, id, snapshot, now);
            && (outcome == Newly <==>
                  && snapshot.owner in db.balances && snapshot.creditedAt.None? && snapshot.status != Expired
                  && db.topUps[id].creditedAt.None?)
            && after.balances.Keys == db.balances.Keys && after.topUps.Keys == db.topUps.Keys
            && (forall u :: u in db.balances ==>
                  after.balances[u] ==
                  db.balances[u] + if outcome == Newly && u == snapshot.owner then snapshot.amount else 0)
            && (forall k :: k in db.topUps && k != id ==> after.topUps[k] == db.topUps[k])
            && after.topUps[id].owner == db.topUps[id].owner && after.topUps[id].amount == db.topUps[id].amount
            && (outcome == Newly ==> after.topUps[id].creditedAt == Some(now))
            && (outcome != Newly ==> after.topUps[id].creditedAt == db.topUps[id].creditedAt)
  {
  }

  /** What a gateway says about an order. A crystalpay invoice past its time counts as dead. */
  datatype Verdict = Open | Paid | Dead

  /** A row that a poll read as `Created`, after the poll; `known` says that its owner exists. */
  function PolledRow(t: TopUp, verdict: Verdict, known: bool, now: int): TopUp {
    match verdict
    case Open => t
    case Paid => if known && t.creditedAt.None? then t.(status := Completed, creditedAt := Some(now)) else t
    case Dead => t.(status := Expired)
  }

  /** What a poll of several rows pays to a user. */
  function Payments(db: Db, ids: seq<TopUpId>, verdicts: map<TopUpId, Verdict>, user: UserId): nat
    requires forall id :: id in ids ==> id in db.topUps && id in verdicts
  {
    if ids == [] then 0
    else
      var id := ids[|ids| - 1];
      Payments(db, ids[..|ids| - 1], verdicts, user)
      + if verdicts[id] == Paid && db.topUps[id].owner == user && db.topUps[id].creditedAt.None? then db.topUps[id].amount else 0
  }

  /** `after` is `db` with the rows `ids` polled. */
  ghost predicate IsPolled(db: Db, after: Db, ids: seq<TopUpId>, verdicts: map<TopUpId, Verdict>, now: int)
    requires forall id :: id in ids ==> id in db.topUps && id in verdicts
  {
    && after.topUps.Keys == db.topUps.Keys && after.balances.Keys == db.balances.Keys
    && (forall id :: id in db.topUps ==>
          after.topUps[id] ==
          if id in ids then PolledRow(db.topUps[id], verdicts[id], db.topUps[id].owner in db.balances, now) else db.topUps[id])
    && (forall u :: u in db.balances ==> after.balances[u] == db.balances[u] + Payments(db, ids, verdicts, u))
  }

  /** One more row: settled when it is paid for, saved as expired when it is dead. */
  function PolledOnce(db: Db, id: TopUpId, verdict: Verdict, now: int): Db
    requires id in db.topUps
  {
    match verdict
    case Open => db
    case Paid => Settled(db, id, db.topUps[id], now).0
    case Dead => db.(topUps := db.topUps[id := db.topUps[id].(status := Expired)])
  }

  lemma PollOne(db: Db, mid: Db, ids: seq<TopUpId>, id: TopUpId, verdicts: map<TopUpId, Verdict>, now: int)
    requires forall k :: k in ids + [id] ==> k in db.topUps && k in verdicts
    requires id !in ids && db.topUps[id].status == Created && IsPolled(db, mid, ids, verdicts, now)
    ensures IsPolled(db, PolledOnce(mid, id, verdicts[id], now), ids + [id], verdicts, now)
  {
    assert (ids + [id])[..|ids|] == ids;
    var t := db.topUps[id];
    assert mid.topUps[id] == t;
    var after := PolledOnce(mid, id, verdicts[id], now);
    assert after.topUps[id] == PolledRow(t, verdicts[id], t.owner in db.balances, now);
    assert forall k :: k in db.topUps && k != id ==> after.topUps[k] == mid.topUps[k];
    hide PolledRow, Settled, CreditOnly;
    forall u | u in db.balances ensures after.balances[u] == db.balances[u] + Payments(db, ids + [id], verdicts, u) {
      PaysWhenUnmarked(mid, id, t, now);
    }
  }

  class Store {
    var topUps: map<TopUpId, TopUp>
    var balances: map<UserId, int>

    ghost function Rows(): Db
      reads this
    {
      Db(topUps, balances)
    }

    method CreditOnlyOnce(id: TopUpId, user: UserId, amount: nat, now: int) returns (outcome: Outcome)
      requires id in topUps && user in balances
      modifies this
      ensures (Rows(), outcome) == CreditOnly(old(Rows()), id, user, amount, now)
    {
      if topUps[id].creditedAt.Some? {
        return Known;
      }
      topUps := topUps[id := topUps[id].(creditedAt := Some(now))];
      balances := balances[user := balances[user] + amount];
      outcome := Newly;
    }

    /** `settleTopUpBalance`, alone in the database. */
    method SettleTopUpBalance(id: TopUpId, now: int) returns (outcome: Outcome)
      modifies this
      ensures id !in old(topUps) ==> Rows() == old(Rows()) && outcome == Nothing
      ensures id in old(topUps) ==> (Rows(), outcome) == Settled(old(Rows()), id, old(topUps)[id], now)
    {
      if id !in topUps {
        return Nothing;
      }
      var topUp := topUps[id];
      if topUp.owner !in balances {
        return Nothing;
      }
      if topUp.creditedAt.Some? {
        return Known;
      }
      if topUp.status == Created {
        topUps := topUps[id := topUp.(status := Completed)];
        outcome := CreditOnlyOnce(id, topUp.owner, topUp.amount, now);
      } else if topUp.status == Completed {
        outcome := CreditOnlyOnce(id, topUp.owner, topUp.amount, now);
      } else {
        outcome := Nothing;
      }
    }

    /**
     * One tick over the rows `ids` that were read as `Created`, when nothing comes between. Paid rows end completed and
     * marked, dead ones expired, no other row changes, and users get the amounts of their paid rows.
     */
    method CheckTopUpsOnce(ids: seq<TopUpId>, verdicts: map<TopUpId, Verdict>, now: int)
      requires forall id :: id in ids ==> id in topUps && id in verdicts && topUps[id].status == Created
      requires forall i, j :: 0 <= i < j < |ids| ==> ids[i] != ids[j]
      modifies this
      ensures IsPolled(old(Rows()), Rows(), ids, verdicts, now)
    {
      ghost var was := Rows();
      for n := 0 to |ids|
        invariant forall id :: id in ids[..n] ==> id in was.topUps && id in verdicts
        invariant IsPolled(was, Rows(), ids[..n], verdicts, now)
      {
        var id := ids[n];
        assert ids[..n + 1] == ids[..n] + [id];
        assert id !in ids[..n];
        PollOne(was, Rows(), ids[..n], id, verdicts, now);
        if verdicts[id] == Paid {
          var _ := SettleTopUpBalance(id, now);
        } else if verdicts[id] == Dead {
          topUps := topUps[id := topUps[id].(status := Expired)];
        }
      }
      assert ids[..|ids|] == ids;
    }
  }
}
