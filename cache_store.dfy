/**
 * The two-tier key/value store of the decoder
 * (tools/jrtc-ctl/services/cache/store.go): a caller key is turned into a
 * query string by the store's key transformer; values live in an in-memory
 * map and, when the remote tier is enabled, in a Redis database. The Redis
 * contents are modelled as a map of already-deserialised values: a value
 * written there is what `json.Marshal` followed by `json.Unmarshal` gives
 * back, the store's `roundTrip` (unexported fields come back as their zero
 * value). A Redis round trip that fails (connection, marshalling or
 * unmarshalling) is the `fault` parameter of each operation.
 */
module CacheStore {
  import opened Wrappers

  /** The two tiers: the in-memory map and the remote database. */
  datatype Tiers<V> = Tiers(mem: map<string, V>, remote: map<string, V>)

  /**
   * `Get` once the key is transformed: memory first; a miss with the remote
   * tier disabled is "not found"; otherwise the remote answer, a hit being
   * cached in memory. The remote tier never changes; memory changes only
   * by caching the remote value of `q` on a miss; a value returned is the
   * memory's or, on a miss, the remote tier's; an error is the remote fault.
   */
  function Fetch<V>(enabled: bool, t: Tiers<V>, q: string, fault: Option<string>): (r: (Result<Option<V>>, Tiers<V>))
    ensures r.1.remote == t.remote
    ensures r.1.mem == t.mem || (q !in t.mem && q in t.remote && r.1.mem == t.mem[q := t.remote[q]])
    ensures r.0.Ok? && r.0.value.Some? ==>
      (q in t.mem && r.0.value.value == t.mem[q]) || (q !in t.mem && q in t.remote && r.0.value.value == t.remote[q])
    ensures r.0.Err? ==> enabled && q !in t.mem && fault.Some? && r.0.error == fault.value
  {
    if q in t.mem then (Ok(Some(t.mem[q])), t)
    else if !enabled then (Ok(None), t)
    else if fault.Some? then (Err(fault.value), t)
    else if q in t.remote then (Ok(Some(t.remote[q])), t.(mem := t.mem[q := t.remote[q]]))
    else (Ok(None), t)
  }

  /**
   * `Set` once the key is transformed: memory is written first and is not
   * rolled back if the remote write fails; Redis holds the value as its JSON
   * round trip gives it back.
   */
  function Put<V>(roundTrip: V -> V, enabled: bool, t: Tiers<V>, q: string, v: V, fault: Option<string>): (r: (Option<string>, Tiers<V>))
    ensures r.1.mem == t.mem[q := v]
    ensures r.0.Some? ==> r.1.remote == t.remote
    ensures r.0.None? && enabled ==> r.1.remote == t.remote[q := roundTrip(v)]
    ensures !enabled ==> r == (None, r.1) && r.1.remote == t.remote
  {
    var t' := t.(mem := t.mem[q := v]);
    if !enabled then (None, t')
    else if fault.Some? then (fault, t')
    else (None, t'.(remote := t.remote[q := roundTrip(v)]))
  }

  /** `Delete` once the key is transformed: memory first, then the remote tier. */
  function Remove<V>(enabled: bool, t: Tiers<V>, q: string, fault: Option<string>): (r: (Option<string>, Tiers<V>))
    ensures q !in r.1.mem && r.1.mem == t.mem - {q}
    ensures r.0.Some? ==> r.1.remote == t.remote
    ensures r.0.None? && enabled ==> q !in r.1.remote && r.1.remote == t.remote - {q}
    ensures !enabled ==> r.0.None? && r.1.remote == t.remote
  {
    var t' := t.(mem := t.mem - {q});
    if !enabled then (None, t')
    else if fault.Some? then (fault, t')
    else (None, t'.(remote := t.remote - {q}))
  }

  /** `Get` on a caller key: a transform error is returned and nothing else happens. */
  function GetKey<K, V>(transform: K -> Result<string>, enabled: bool, t: Tiers<V>, key: K, fault: Option<string>): (Result<Option<V>>, Tiers<V>)
  {
    match transform(key)
    case Err(e) => (Err(e), t)
    case Ok(q) => Fetch(enabled, t, q, fault)
  }

  /** `Set` on a caller key. */
  function SetKey<K, V>(transform: K -> Result<string>, roundTrip: V -> V, enabled: bool, t: Tiers<V>, key: K, v: V,
                        fault: Option<string>): (Option<string>, Tiers<V>)
  {
    match transform(key)
    case Err(e) => (Some(e), t)
    case Ok(q) => Put(roundTrip, enabled, t, q, v, fault)
  }

  /** `Delete` on a caller key. */
  function DeleteKey<K, V>(transform: K -> Result<string>, enabled: bool, t: Tiers<V>, key: K, fault: Option<string>): (Option<string>, Tiers<V>)
  {
    match transform(key)
    case Err(e) => (Some(e), t)
    case Ok(q) => Remove(enabled, t, q, fault)
  }

  /** A memory hit answers with the cached value, whatever the remote tier would say, and changes nothing. */
  lemma MemoryHitIgnoresRemote<V>(enabled: bool, t: Tiers<V>, q: string, fault: Option<string>, remote: map<string, V>)
    requires q in t.mem
    ensures Fetch(enabled, t, q, fault) == (Ok(Some(t.mem[q])), t)
    ensures Fetch(enabled, t.(remote := remote), q, None).0 == Fetch(enabled, t, q, fault).0
  {
  }

  /** With the remote tier disabled, a memory miss is "not found" and nothing changes. */
  lemma DisabledMissNotFound<V>(t: Tiers<V>, q: string, fault: Option<string>)
    requires q !in t.mem
    ensures Fetch(false, t, q, fault) == (Ok(None), t)
  {
  }

  /** Only the memory tier ever changes on `Get`, and only by caching what was found. */
  lemma FetchOnlyCaches<V>(enabled: bool, t: Tiers<V>, q: string, fault: Option<string>)
    ensures Fetch(enabled, t, q, fault).1.remote == t.remote
    ensures Fetch(enabled, t, q, fault).0.Ok? && Fetch(enabled, t, q, fault).0.value.Some? ==>
      var t' := Fetch(enabled, t, q, fault).1;
      t'.mem == t.mem[q := Fetch(enabled, t, q, fault).0.value.value]
    ensures !(Fetch(enabled, t, q, fault).0.Ok? && Fetch(enabled, t, q, fault).0.value.Some?) ==> Fetch(enabled, t, q, fault).1 == t
  {
  }

  /**
   * `t'` differs from `t` only by remote entries copied into memory, which
   * happens only when the remote tier is enabled.
   */
  ghost predicate Caches<V>(enabled: bool, t: Tiers<V>, t': Tiers<V>)
  {
    t'.remote == t.remote &&
    (forall k :: k in t.mem ==> k in t'.mem && t'.mem[k] == t.mem[k]) &&
    (forall k :: k in t'.mem && k !in t.mem ==> enabled && k in t.remote && t'.mem[k] == t.remote[k])
  }

  /** `Get` only caches. */
  lemma FetchCaches<V>(enabled: bool, t: Tiers<V>, q: string, fault: Option<string>)
    ensures Caches(enabled, t, Fetch(enabled, t, q, fault).1)
  {
  }

  /** So does `Get` on a caller key. */
  lemma GetKeyCaches<K, V>(transform: K -> Result<string>, enabled: bool, t: Tiers<V>, key: K, fault: Option<string>)
    ensures Caches(enabled, t, GetKey(transform, enabled, t, key, fault).1)
  {
    if transform(key).Ok? {
      FetchCaches(enabled, t, transform(key).value, fault);
    }
  }

  /** Caching is transitive. */
  lemma CachesTransitive<V>(enabled: bool, t1: Tiers<V>, t2: Tiers<V>, t3: Tiers<V>)
    requires Caches(enabled, t1, t2) && Caches(enabled, t2, t3)
    ensures Caches(enabled, t1, t3)
  {
  }

  /** Caching changes no answer of a `Get` whose remote round trip succeeds. */
  lemma CachesKeepsAnswers<V>(enabled: bool, t: Tiers<V>, t': Tiers<V>, q: string)
    requires Caches(enabled, t, t')
    ensures Fetch(enabled, t', q, None).0 == Fetch(enabled, t, q, None).0
  {
  }

  /** A value found once is found again from memory, with no further change: `Get` is idempotent. */
  lemma FetchIdempotent<V>(enabled: bool, t: Tiers<V>, q: string, f1: Option<string>, f2: Option<string>)
    requires Fetch(enabled, t, q, f1).0.Ok? && Fetch(enabled, t, q, f1).0.value.Some?
    ensures var (r, t') := Fetch(enabled, t, q, f1); Fetch(enabled, t', q, f2) == (r, t')
  {
  }

  /** After `Set(q, v)` — even one whose remote write failed — `Get(q)` answers `v` from memory. */
  lemma FetchAfterPut<V>(roundTrip: V -> V, enabled: bool, t: Tiers<V>, q: string, v: V, f1: Option<string>, f2: Option<string>)
    ensures var t' := Put(roundTrip, enabled, t, q, v, f1).1; Fetch(enabled, t', q, f2) == (Ok(Some(v)), t')
  {
  }

  /**
   * After a successful remote `Set(q, v)`, a `Get(q)` that misses memory (a
   * fresh store over the same Redis database) answers the round trip of `v`,
   * not `v`, and caches it.
   */
  lemma FetchAfterPutFromRemote<V>(roundTrip: V -> V, t: Tiers<V>, q: string, v: V, mem: map<string, V>)
    requires q !in mem
    ensures var t' := Put(roundTrip, true, t, q, v, None).1;
      Fetch(true, Tiers(mem, t'.remote), q, None) == (Ok(Some(roundTrip(v))), Tiers(mem[q := roundTrip(v)], t'.remote))
  {
  }

  /** `Set(q, v)` does not change what `Get` answers for another key. */
  lemma FetchAfterPutOther<V>(roundTrip: V -> V, enabled: bool, t: Tiers<V>, q: string, v: V, f1: Option<string>,
                               p: string, f2: Option<string>)
    requires p != q
    ensures Fetch(enabled, Put(roundTrip, enabled, t, q, v, f1).1, p, f2).0 == Fetch(enabled, t, p, f2).0
  {
  }

  /** A failed remote write is reported, but the memory tier keeps the new value. */
  lemma PutNoRollback<V>(roundTrip: V -> V, t: Tiers<V>, q: string, v: V, e: string)
    ensures Put(roundTrip, true, t, q, v, Some(e)) == (Some(e), t.(mem := t.mem[q := v]))
  {
  }

  /** After `Delete(q)`, `Get(q)` misses unless a failed remote delete left the remote copy. */
  lemma FetchAfterRemove<V>(enabled: bool, t: Tiers<V>, q: string, f1: Option<string>, f2: Option<string>)
    requires Remove(enabled, t, q, f1).0.None?
    ensures var t' := Remove(enabled, t, q, f1).1; Fetch(enabled, t', q, f2).0 == (if enabled && f2.Some? then Err(f2.value) else Ok(None))
  {
  }

  /** `Delete(q)` leaves every other key's entry in both tiers alone. */
  lemma RemoveOnlyKey<V>(enabled: bool, t: Tiers<V>, q: string, f: Option<string>, p: string)
    requires p != q
    ensures var t' := Remove(enabled, t, q, f).1;
      (p in t'.mem <==> p in t.mem) && (p in t.mem ==> t'.mem[p] == t.mem[p]) &&
      (p in t'.remote <==> p in t.remote) && (p in t.remote ==> t'.remote[p] == t.remote[p])
  {
  }

  /** A key the transformer rejects makes every operation fail with that error and change nothing. */
  lemma TransformErrorChangesNothing<K, V>(transform: K -> Result<string>, roundTrip: V -> V, enabled: bool, t: Tiers<V>,
                                           key: K, v: V, fault: Option<string>)
    requires transform(key).Err?
    ensures GetKey(transform, enabled, t, key, fault) == (Err(transform(key).error), t)
    ensures SetKey(transform, roundTrip, enabled, t, key, v, fault) == (Some(transform(key).error), t)
    ensures DeleteKey(transform, enabled, t, key, fault) == (Some(transform(key).error), t)
  {
  }

  /** Two caller keys the transformer maps to the same string share one entry. */
  lemma EqualTransformsShareEntry<K, V>(transform: K -> Result<string>, roundTrip: V -> V, enabled: bool, t: Tiers<V>,
                                         k1: K, k2: K, v: V, f1: Option<string>, f2: Option<string>)
    requires transform(k1).Ok? && transform(k1) == transform(k2)
    ensures var t' := SetKey(transform, roundTrip, enabled, t, k1, v, f1).1; GetKey(transform, enabled, t', k2, f2) == (Ok(Some(v)), t')
    ensures GetKey(transform, enabled, t, k1, f2) == GetKey(transform, enabled, t, k2, f2)
  {
    FetchAfterPut(roundTrip, enabled, t, transform(k1).value, v, f1, f2);
  }

  /**
   * `Store[TKey, T]`: the key transformer, the JSON round trip of `T`,
   * whether the remote tier is enabled, and the two tiers.
   */
  class Store<K, V> {
    const transform: K -> Result<string>
    const roundTrip: V -> V
    const enabled: bool
    var mem: map<string, V>
    var remote: map<string, V>

    /** `NewStore`: an empty memory tier over the client's remote tier. */
    constructor (transform: K -> Result<string>, roundTrip: V -> V, enabled: bool, remote: map<string, V>)
      ensures this.transform == transform && this.roundTrip == roundTrip && this.enabled == enabled
      ensures mem == map[] && this.remote == remote
    {
      this.transform := transform;
      this.roundTrip := roundTrip;
      this.enabled := enabled;
      mem := map[];
      this.remote := remote;
    }

    /** The two tiers as they stand. */
    function Contents(): Tiers<V>
      reads this
    {
      Tiers(mem, remote)
    }

    /** `Store.Get`. */
    method Get(key: K, fault: Option<string>) returns (r: Result<Option<V>>)
      modifies this
      ensures (r, Contents()) == GetKey(transform, enabled, old(Contents()), key, fault)
    {
      var queryKey := transform(key);
      if queryKey.Err? {
        return Err(queryKey.error);
      }
      var q := queryKey.value;
      if q in mem {
        return Ok(Some(mem[q]));
      }
      if !enabled {
        return Ok(None);
      }
      if fault.Some? {
        return Err(fault.value);
      }
      if q !in remote {
        return Ok(None);
      }
      var ret := remote[q];
      mem := mem[q := ret];
      return Ok(Some(ret));
    }

    /** `Store.Set`. */
    method Set(key: K, value: V, fault: Option<string>) returns (err: Option<string>)
      modifies this
      ensures (err, Contents()) == SetKey(transform, roundTrip, enabled, old(Contents()), key, value, fault)
    {
      var queryKey := transform(key);
      if queryKey.Err? {
        return Some(queryKey.error);
      }
      var q := queryKey.value;
      mem := mem[q := value];
      if !enabled {
        return None;
      }
      if fault.Some? {
        return fault;
      }
      remote := remote[q := roundTrip(value)];
      return None;
    }

    /** `Store.Delete`. */
    method Delete(key: K, fault: Option<string>) returns (err: Option<string>)
      modifies this
      ensures (err, Contents()) == DeleteKey(transform, enabled, old(Contents()), key, fault)
    {
      var queryKey := transform(key);
      if queryKey.Err? {
        return Some(queryKey.error);
      }
      var q := queryKey.value;
      mem := mem - {q};
      if !enabled {
        return None;
      }
      if fault.Some? {
        return fault;
      }
      remote := remote - {q};
      return None;
    }
  }
}
