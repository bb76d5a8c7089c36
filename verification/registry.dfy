/** The registry service: `Add(alias, path)` and `Get(alias)` over one configured
    bucket, each wrapped in exactly one transaction.

    The repository carries the service twice, as `DBService` (libs/db_service.go) and
    as `Service` (libs/file_manager.go). The two are the same code except for the
    first letter of the missing-bucket message, so they are one definition here,
    told apart by `Style`; `FileManagerAddMatchesDbService` and
    `FileManagerGetMatchesDbService` state exactly how far they agree. */
module Registry {
  import opened Wrappers
  import opened Errors
  import opened Kv

  /** How the missing-bucket message is spelled: `DBService` writes "Bucket ...",
      the file-manager `Service` writes "bucket ...". */
  datatype Style = Capitalised | Lowercase

  /** A service bound to its configured bucket name. */
  datatype Service = Service(bucketName: string, style: Style)

  /** The error that reports the configured bucket missing. */
  function NotFound(svc: Service): (e: Error)
    ensures e.Message? && |e.text| == |svc.bucketName| + 17
    ensures e.text[0] == (if svc.style == Capitalised then 'B' else 'b')
    ensures e.text[1..7] == "ucket " && e.text[7..7 + |svc.bucketName|] == svc.bucketName
    ensures e.text[7 + |svc.bucketName|..] == " not found"
  {
    var head := if svc.style == Capitalised then "Bucket " else "bucket ";
    Message(head + svc.bucketName + " not found")
  }

  /** `Get`'s answer, Go's `(string, error)` pair: on error the string is "". */
  datatype Read = Read(value: string, err: Option<Error>)

  /** The body `Add` hands to `Update`: look the bucket up, refuse when it is
      missing, otherwise put `key -> value` into it. */
  function AddWork(svc: Service, key: string, value: string, putFault: Option<Error>, tx: Store): Result<Store, Error>
  {
    match TxBucket(tx, svc.bucketName)
    case None => Failure(NotFound(svc))
    case Some(b) =>
      match BucketPut(b, key, value, putFault)
      case Failure(e) => Failure(e)
      case Success(b') => Success(Store(tx.buckets[svc.bucketName := b']))
  }

  /** The body `Get` hands to `View`: look the bucket up, refuse when it is missing,
      otherwise read the key's value, which may be nil. */
  function GetWork(svc: Service, key: string, tx: Store): Result<Option<string>, Error>
  {
    match TxBucket(tx, svc.bucketName)
    case None => Failure(NotFound(svc))
    case Some(b) => Success(BucketGet(b, key))
  }

  /** The bucket-name-level view of a store: the value a `Get` of `key` in bucket
      `name` would read, "" when the bucket or the key is missing. */
  function Lookup(s: Store, name: string, key: string): string
  {
    if name in s.buckets && key in s.buckets[name] then s.buckets[name][key] else ""
  }

  /** `Add(key, value)`: one read-write transaction that puts `key -> value` into the
      configured bucket. It succeeds exactly when the transaction begins, the bucket
      exists, `Put` succeeds and the commit succeeds; the first failure is returned
      unchanged, a missing bucket as `NotFound`, and a failed `Add` leaves the store
      as it was. A successful one changes that one key of that one bucket. */
  function Add(svc: Service, s: Store, key: string, value: string, f: Faults): (r: Committed)
    ensures r.err.None? <==> f.begin.None? && svc.bucketName in s.buckets && f.put.None? && f.commit.None?
    ensures r.err.Some? ==> r.after == s
    ensures f.begin.Some? ==> r.err == f.begin
    ensures f.begin.None? && svc.bucketName !in s.buckets ==> r.err == Some(NotFound(svc))
    ensures f.begin.None? && svc.bucketName in s.buckets && f.put.Some? ==> r.err == f.put
    ensures f.begin.None? && svc.bucketName in s.buckets && f.put.None? && f.commit.Some? ==> r.err == f.commit
    ensures r.err.None? ==> r.after.buckets.Keys == s.buckets.Keys
    ensures r.err.None? ==> key in r.after.buckets[svc.bucketName] && r.after.buckets[svc.bucketName][key] == value
    ensures r.err.None? ==> r.after.buckets[svc.bucketName].Keys == s.buckets[svc.bucketName].Keys + {key}
    ensures r.err.None? ==> forall k :: k in s.buckets[svc.bucketName] && k != key ==>
                              r.after.buckets[svc.bucketName][k] == s.buckets[svc.bucketName][k]
    ensures r.err.None? ==> forall n :: n in s.buckets && n != svc.bucketName ==> r.after.buckets[n] == s.buckets[n]
    ensures r.err.None? ==> Lookup(r.after, svc.bucketName, key) == value
    ensures r.err.None? ==> forall n, k :: (n != svc.bucketName || k != key) ==> Lookup(r.after, n, k) == Lookup(s, n, k)
  {
    Update(s, f, (tx: Store) => AddWork(svc, key, value, f.put, tx))
  }

  /** `Get(key)`: one read-only transaction that reads `key` from the configured
      bucket. A failed transaction or a missing bucket gives `("", error)`; otherwise
      the stored value comes back with no error, and a key that was never added reads
      as "". */
  function Get(svc: Service, s: Store, key: string, begin: Option<Error>): (r: Read)
    ensures r.err.None? <==> begin.None? && svc.bucketName in s.buckets
    ensures r.err.Some? ==> r.value == ""
    ensures begin.Some? ==> r.err == begin
    ensures begin.None? && svc.bucketName !in s.buckets ==> r.err == Some(NotFound(svc))
    ensures r.err.None? ==> r.value == Lookup(s, svc.bucketName, key)
  {
    match View(s, begin, (tx: Store) => GetWork(svc, key, tx))
    case Failure(e) => Read("", Some(e))
    case Success(v) => Read(BytesToString(v), None)
  }

  /** Round trip: a successful `Add(k, v)` followed by `Get(k)` reads `v`. */
  lemma AddThenGet(svc: Service, s: Store, key: string, value: string, f: Faults)
    requires Add(svc, s, key, value, f).err.None?
    ensures Get(svc, Add(svc, s, key, value, f).after, key, None) == Read(value, None)
  {
  }

  /** Overwrite: after `Add(k, v1); Add(k, v2)` the store is the one a single
      `Add(k, v2)` would leave, so `Get(k)` reads `v2`. */
  lemma AddOverwrites(svc: Service, s: Store, key: string, v1: string, v2: string)
    requires svc.bucketName in s.buckets
    ensures var s1 := Add(svc, s, key, v1, NoFaults).after;
            Add(svc, s1, key, v2, NoFaults) == Add(svc, s, key, v2, NoFaults)
    ensures var s1 := Add(svc, s, key, v1, NoFaults).after;
            Get(svc, Add(svc, s1, key, v2, NoFaults).after, key, None) == Read(v2, None)
  {
    var b := s.buckets[svc.bucketName];
    assert b[key := v1][key := v2] == b[key := v2];
  }

  /** Nothing else changes: a successful `Add` leaves every other key of every bucket,
      as another service bound to any bucket would read it, as it was. */
  lemma AddLeavesOthers(svc: Service, other: Service, s: Store, key: string, value: string, k: string, f: Faults)
    requires Add(svc, s, key, value, f).err.None?
    requires other.bucketName != svc.bucketName || k != key
    ensures Get(other, Add(svc, s, key, value, f).after, k, None) == Get(other, s, k, None)
  {
  }

  /** A key that was never added reads as "" with no error, and nothing about the
      answer tells it apart from a key added with the empty string. */
  lemma MissingKeyReadsEmpty(svc: Service, s: Store, key: string)
    requires svc.bucketName in s.buckets && key !in s.buckets[svc.bucketName]
    ensures Get(svc, s, key, None) == Read("", None)
    ensures Get(svc, s, key, None) == Get(svc, Add(svc, s, key, "", NoFaults).after, key, None)
  {
  }

  /** The file-manager `Service.Add` behaves as `DBService.Add` does, except that a
      missing bucket is reported with a lower-case first letter. */
  lemma FileManagerAddMatchesDbService(name: string, s: Store, key: string, value: string, f: Faults)
    ensures var db := Add(Service(name, Capitalised), s, key, value, f);
            var fm := Add(Service(name, Lowercase), s, key, value, f);
            fm.after == db.after && (fm.err.None? <==> db.err.None?)
    ensures var db := Add(Service(name, Capitalised), s, key, value, f);
            var fm := Add(Service(name, Lowercase), s, key, value, f);
            (f.begin.Some? || name in s.buckets) ==> fm == db
    ensures f.begin.None? && name !in s.buckets ==>
            Add(Service(name, Lowercase), s, key, value, f).err == Some(Message("bucket " + name + " not found"))
  {
  }

  /** The file-manager `Service.Get` behaves as `DBService.Get` does, except that a
      missing bucket is reported with a lower-case first letter. */
  lemma FileManagerGetMatchesDbService(name: string, s: Store, key: string, begin: Option<Error>)
    ensures var db := Get(Service(name, Capitalised), s, key, begin);
            var fm := Get(Service(name, Lowercase), s, key, begin);
            fm.value == db.value && (fm.err.None? <==> db.err.None?)
    ensures (begin.Some? || name in s.buckets) ==>
            Get(Service(name, Lowercase), s, key, begin) == Get(Service(name, Capitalised), s, key, begin)
    ensures begin.None? && name !in s.buckets ==>
            Get(Service(name, Lowercase), s, key, begin).err == Some(Message("bucket " + name + " not found"))
  {
  }

  /** Once the database has been opened, a service bound to the default bucket never
      reports the bucket missing: with an engine that does not fail its `Add` succeeds
      and its `Get` answers without error. */
  lemma OpenedStoreHasBucket(style: Style, s: Store, key: string, value: string)
    ensures Add(Service(DefaultBucket, style), Open(s), key, value, NoFaults).err.None?
    ensures Get(Service(DefaultBucket, style), Open(s), key, None).err.None?
  {
  }

  /** A run of successful `Add`s, oldest first, each a separate invocation with an
      engine that does not fail. */
  function AddAll(svc: Service, s: Store, writes: seq<(string, string)>): (r: Store)
    requires svc.bucketName in s.buckets
    ensures svc.bucketName in r.buckets
    decreases |writes|
  {
    if |writes| == 0 then s
    else AddAll(svc, Add(svc, s, writes[0].0, writes[0].1, NoFaults).after, writes[1..])
  }

  /** The value of the last write to `key` in `writes`, if any. */
  function LastWrite(writes: seq<(string, string)>, key: string): Option<string>
    decreases |writes|
  {
    if |writes| == 0 then None
    else if writes[|writes| - 1].0 == key then Some(writes[|writes| - 1].1)
    else LastWrite(writes[..|writes| - 1], key)
  }

  /** `LastWrite` of a run extended by one more write. */
  lemma {:induction false} LastWriteCons(w: (string, string), writes: seq<(string, string)>, key: string)
    ensures LastWrite([w] + writes, key) ==
            (if LastWrite(writes, key).Some? then LastWrite(writes, key)
             else if w.0 == key then Some(w.1) else None)
    decreases |writes|
  {
    if |writes| == 0 {
      assert [w] + writes == [w];
    } else {
      var ws := [w] + writes;
      assert ws[..|ws| - 1] == [w] + writes[..|writes| - 1];
      LastWriteCons(w, writes[..|writes| - 1], key);
    }
  }

  /** Last write wins: after a run of `Add`s, `Get(k)` reads the value of the last
      write to `k`, or what it read before the run when the run never wrote `k`. */
  lemma {:induction false} LastWriteWins(svc: Service, s: Store, writes: seq<(string, string)>, key: string)
    requires svc.bucketName in s.buckets
    ensures Get(svc, AddAll(svc, s, writes), key, None) ==
            Read(LastWrite(writes, key).GetOr(Get(svc, s, key, None).value), None)
    decreases |writes|
  {
    if |writes| == 0 {
    } else {
      var s1 := Add(svc, s, writes[0].0, writes[0].1, NoFaults).after;
      LastWriteWins(svc, s1, writes[1..], key);
      assert writes == [writes[0]] + writes[1..];
      LastWriteCons(writes[0], writes[1..], key);
    }
  }
}
