/** The transactional key-value contract the registry is written against: a database
    (`DB`) that runs read-write (`Update`) and read-only (`View`) transactions, a
    transaction (`Tx`) that hands out named buckets, and a bucket (`Bucket`) that puts
    and gets values.

    The engine behind the contract is replaced by an immutable store, a map from
    bucket name to that bucket's contents. Engine failures are not derived: they are
    injected through `Faults`, one optional error per place the engine can fail. */
module Kv {
  import opened Wrappers
  import opened Errors

  /** A bucket's contents. Keys and values are byte slices in the contract; the
      registry only ever stores converted strings, so they are strings here. */
  type Bucket = map<string, string>

  /** The whole database: bucket name to contents. A name absent from the map is a
      bucket that does not exist. */
  datatype Store = Store(buckets: map<string, Bucket>)

  /** Engine failures injected in place of the real engine's: the transaction cannot
      begin, `Put` fails (empty key, oversized value, disk error, ...), or the commit
      fails. `View` only consults `begin`. */
  datatype Faults = Faults(begin: Option<Error>, put: Option<Error>, commit: Option<Error>)

  /** An engine that does not fail. */
  const NoFaults := Faults(None, None, None)

  /** What a read-write transaction leaves behind: its error (nil on success) and the
      store as it is afterwards. */
  datatype Committed = Committed(err: Option<Error>, after: Store)

  /** The name of the bucket the database guarantees when it is opened. */
  const DefaultBucket := "kv"

  /** `Tx.Bucket`: the named bucket's handle, or nil when the store has no bucket of
      that name. */
  function TxBucket(tx: Store, name: string): (b: Option<Bucket>)
    ensures b.None? <==> name !in tx.buckets
    ensures b.Some? ==> b.value == tx.buckets[name]
  {
    if name in tx.buckets then Some(tx.buckets[name]) else None
  }

  /** `Bucket.Get`: the stored value, or nil for a key that was never put. A missing
      key is a normal outcome, never an error. */
  function BucketGet(b: Bucket, key: string): (v: Option<string>)
    ensures v.None? <==> key !in b
    ensures v.Some? ==> v.value == b[key]
  {
    if key in b then Some(b[key]) else None
  }

  /** `Bucket.Put`: upserts `key -> value` unless the engine refuses with `fault`. */
  function BucketPut(b: Bucket, key: string, value: string, fault: Option<Error>): (r: Result<Bucket, Error>)
    ensures fault.Some? ==> r == Failure(fault.value)
    ensures fault.None? ==> r.Success? && key in r.value && r.value[key] == value
    ensures fault.None? ==> r.Success? && r.value.Keys == b.Keys + {key}
    ensures fault.None? ==> r.Success? && forall k :: k in b && k != key ==> r.value[k] == b[k]
  {
    match fault
    case Some(e) => Failure(e)
    case None => Success(b[key := value])
  }

  /** `string(v)` for a `[]byte` that may be nil: Go converts a nil slice to "". */
  function BytesToString(v: Option<string>): (s: string)
    ensures v.None? ==> s == ""
    ensures v.Some? ==> s == v.value
  {
    v.GetOr("")
  }

  /** `DB.Update`: runs `work` in a read-write transaction. The work's changes are
      committed only when it succeeds and the commit succeeds; on any error (the
      transaction cannot begin, the work fails, the commit fails) the transaction is
      rolled back and that error is returned unchanged. */
  function Update(s: Store, f: Faults, work: Store -> Result<Store, Error>): (r: Committed)
    ensures r.err.Some? ==> r.after == s
    ensures r.err.None? <==> f.begin.None? && work(s).Success? && f.commit.None?
    ensures r.err.None? ==> r.after == work(s).value
    ensures f.begin.Some? ==> r.err == f.begin
    ensures f.begin.None? && work(s).Failure? ==> r.err == Some(work(s).error)
    ensures f.begin.None? && work(s).Success? && f.commit.Some? ==> r.err == f.commit
  {
    if f.begin.Some? then Committed(f.begin, s)
    else
      match work(s)
      case Failure(e) => Committed(Some(e), s)
      case Success(s') =>
        if f.commit.Some? then Committed(f.commit, s) else Committed(None, s')
  }

  /** `DB.View`: runs `work` in a read-only transaction and returns what it read, or
      the error that stopped it. The result carries no store: a read-only transaction
      cannot change one. */
  function View<T>(s: Store, begin: Option<Error>, work: Store -> Result<T, Error>): (r: Result<T, Error>)
    ensures begin.Some? ==> r == Failure(begin.value)
    ensures begin.None? ==> r == work(s)
  {
    match begin
    case Some(e) => Failure(e)
    case None => work(s)
  }

  /** Opening the database ensures the default bucket exists, creating it empty when
      it is missing (`CreateBucketIfNotExists`). */
  function Open(s: Store): (r: Store)
    ensures DefaultBucket in r.buckets
    ensures DefaultBucket in s.buckets ==> r == s
    ensures DefaultBucket !in s.buckets ==> r.buckets[DefaultBucket] == map[]
    ensures r.buckets.Keys == s.buckets.Keys + {DefaultBucket}
    ensures forall n :: n in s.buckets ==> r.buckets[n] == s.buckets[n]
  {
    if DefaultBucket in s.buckets then s
    else Store(s.buckets[DefaultBucket := map[]])
  }

  /** Opening an already opened database changes nothing. */
  lemma OpenIdempotent(s: Store)
    ensures Open(Open(s)) == Open(s)
  {
  }
}
