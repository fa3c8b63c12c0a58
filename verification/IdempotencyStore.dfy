// The in-memory idempotency store of src/infrastructure/redis/reseller-security-store.ts.
module IdempotencyStore {
  import opened Common

  /** What the client asked for, `${method}:${path}`: to create a service, or to buy an address for one. */
  datatype Route = CreateRoute | Ipv4Route(service: nat)

  /** The store's key, `${resellerId}:${method}:${path}:${key}`: two requests share it only on the same route. */
  datatype Key = Key(reseller: nat, route: Route, name: string)

  type Hash = string

  /** A claim older than this no longer keeps a second request with the same key out. */
  const LEASE_MS: nat := 15 * 60 * 1000

  datatype Record<R> =
    | Processing(hash: Hash, startedAt: nat, expiresAt: nat)
    | Completed(hash: Hash, status: nat, response: R, startedAt: nat, expiresAt: nat)

  type Records<R> = map<Key, Record<R>>

  datatype Outcome<R> = Proceed | Replay(status: nat, response: R) | Conflict | InProgress

  // ---------------------------------------------------------------- specification

  function Claimed<R>(records: Records<R>, key: Key, hash: Hash, now: nat, ttl: nat): Records<R> {
    records[key := Processing(hash, now, now + ttl)]
  }

  /** `beginIdempotentRequest`: the answer, and the records behind it. */
  function Begun<R>(records: Records<R>, key: Key, hash: Hash, now: nat, ttl: nat): (Outcome<R>, Records<R>) {
    if key in records && records[key].expiresAt > now then
      match records[key]
      case Completed(h, status, response, _, _) =>
        (if h != hash then Conflict else Replay(status, response), records)
      case Processing(_, startedAt, _) =>
        if now - startedAt < LEASE_MS then (InProgress, records)
        else (Proceed, Claimed(records, key, hash, now, ttl))
    else (Proceed, Claimed(records, key, hash, now, ttl))
  }

  /** `completeIdempotentRequest` */
  function CompletedRecords<R>(records: Records<R>, key: Key, hash: Hash, status: nat, response: R, now: nat, ttl: nat)
    : Records<R>
  {
    records[key := Completed(hash, status, response, now, now + ttl)]
  }

  /** `releaseIdempotentRequest` */
  function Released<R>(records: Records<R>, key: Key, hash: Hash): Records<R> {
    if key in records && records[key].Processing? && records[key].hash == hash then records - {key} else records
  }

  /** `pruneMemorySecurityCaches`, as far as idempotency goes. */
  function Unexpired<R>(records: Records<R>, now: nat): Records<R> {
    map k | k in records && now < records[k].expiresAt :: records[k]
  }

  // ---------------------------------------------------------------- what the answers mean

  /** Something in the store keeps a further request with this key from being run. */
  predicate Held<R>(records: Records<R>, key: Key, now: nat) {
    && key in records
    && now < records[key].expiresAt
    && (records[key].Completed? || now < records[key].startedAt + LEASE_MS)
  }

  /** A request may run exactly when the key is not held; then it holds the key, for one lease or until it expires. */
  lemma BeginGrants<R>(records: Records<R>, key: Key, hash: Hash, now: nat, ttl: nat)
    ensures var (outcome, after) := Begun(records, key, hash, now, ttl);
            && (outcome.Proceed? <==> !Held(records, key, now))
            && (outcome.Proceed? ==>
                  forall t: nat :: now <= t ==> (Held(after, key, t) <==> t < now + Min(LEASE_MS, ttl)))
            && (!outcome.Proceed? ==> after == records)
            && (forall k :: k in records && k != key ==> k in after && after[k] == records[k])
  {
  }

  /** The body only counts once the first answer is recorded: until then every repetition is told to wait. */
  lemma BodyMattersWhenCompleted<R>(records: Records<R>, key: Key, hash: Hash, now: nat, ttl: nat)
    ensures var outcome := Begun(records, key, hash, now, ttl).0;
            && (outcome.Conflict? <==> Held(records, key, now) && records[key].Completed? && records[key].hash != hash)
            && (outcome.InProgress? <==> Held(records, key, now) && records[key].Processing?)
            && (outcome.Replay? <==> Held(records, key, now) && records[key].Completed? && records[key].hash == hash)
            && (outcome.Replay? ==> outcome == Replay(records[key].status, records[key].response))
  {
  }

  /** Once an answer is recorded, the same body gets exactly it until it expires, and any other body a conflict. */
  lemma CompletedAnswers<R>(records: Records<R>, key: Key, hash: Hash, status: nat, response: R, now: nat, ttl: nat,
                            hash': Hash, later: nat)
    requires now <= later < now + ttl
    ensures var after := CompletedRecords(records, key, hash, status, response, now, ttl);
            Begun(after, key, hash', later, ttl) == (if hash' == hash then Replay(status, response) else Conflict, after)
  {
  }

  /** Giving a key back lets the next request run, and only the claimant's own body can give it back. */
  lemma ReleaseFrees<R>(records: Records<R>, key: Key, hash: Hash, hash': Hash, now: nat, ttl: nat)
    requires !Held(records, key, now)
    ensures var claimed := Begun(records, key, hash, now, ttl).1;
            && (hash' == hash ==> !Held(Released(claimed, key, hash'), key, now))
            && (hash' != hash ==> Released(claimed, key, hash') == claimed)
  {
  }

  /** Throwing expired entries away changes no answer. */
  lemma PruningIsInvisible<R>(records: Records<R>, key: Key, hash: Hash, now: nat, later: nat, ttl: nat)
    requires now <= later
    ensures Begun(Unexpired(records, now), key, hash, later, ttl).0 == Begun(records, key, hash, later, ttl).0
  {
  }

  // ---------------------------------------------------------------- the module-level map

  class Store<R> {
    var records: Records<R>
    const ttl: nat

    constructor (ttl: nat)
      ensures records == map[] && this.ttl == ttl
    {
      records := map[];
      this.ttl := ttl;
    }

    method Begin(key: Key, hash: Hash, now: nat) returns (outcome: Outcome<R>)
      modifies this
      ensures (outcome, records) == Begun(old(records), key, hash, now, ttl)
    {
      if key in records && records[key].expiresAt > now {
        var existing := records[key];
        if existing.Completed? {
          if existing.hash != hash {
            return Conflict;
          }
          return Replay(existing.status, existing.response);
        }
        var ageMs := now - existing.startedAt;
        if ageMs < LEASE_MS {
          return InProgress;
        }
      }
      records := records[key := Processing(hash, now, now + ttl)];
      outcome := Proceed;
    }

    method Complete(key: Key, hash: Hash, status: nat, response: R, now: nat)
      modifies this
      ensures records == CompletedRecords(old(records), key, hash, status, response, now, ttl)
    {
      records := records[key := Completed(hash, status, response, now, now + ttl)];
    }

    method Release(key: Key, hash: Hash)
      modifies this
      ensures records == Released(old(records), key, hash)
    {
      if key in records && records[key].Processing? && records[key].hash == hash {
        records := records - {key};
      }
    }

    method Prune(now: nat)
      modifies this
      ensures records == Unexpired(old(records), now)
    {
      var todo := records.Keys;
      while todo != {}
        invariant todo <= records.Keys <= old(records).Keys
        invariant forall k :: k in records ==> records[k] == old(records)[k] && (k in todo || now < records[k].expiresAt)
        invariant forall k :: k in old(records) && now < old(records)[k].expiresAt ==> k in records
        decreases todo
      {
        var k :| k in todo;
        todo := todo - {k};
        if now >= records[k].expiresAt {
          records := records - {k};
        }
      }
    }
  }
}
