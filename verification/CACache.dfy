/**
  The cache of server CA certificates, shared by Secret identity and version. `Cell` is its state
  for one Secret between critical sections of the state mutex; `CACache` is the object that holds
  all of them. What a section reads from the Secret informer is passed in.
 */
module CACaches {
  import opened Keys

  datatype SecretKey = SecretKey(namespace: string, name: string)
  datatype Version = Version(uid: string, resourceVersion: string)

  /** A cached CA. `id` is the identity of the object, by which observations retain it. */
  datatype Entry = Entry(id: nat, version: Version, public: seq<bv8>)

  /** The worker that may hold the Secret's key; `meta` is what the informer held when the read began. */
  datatype Worker = Idle | Holding | Reading(meta: Version, cancelled: bool) | Leaving

  datatype Cell = Cell(entry: Option<Entry>, pending: bool, queued: bool, retries: nat, worker: Worker) {
    /** The cached entry is the informer's version. */
    predicate Fresh(meta: Option<Version>) {
      entry.Some? && meta == Some(entry.value.version)
    }

    /** The retained entry is the cached object itself, and the informer's version. */
    predicate Current(ca: Option<Entry>, meta: Option<Version>) {
      ca.Some? && entry == ca && meta == Some(ca.value.version)
    }

    /** An observation asks for the CA: a hit, an absent Secret, or a fetch to wait for. */
    function Asked(meta: Option<Version>): Cell {
      if Fresh(meta) || meta.None? || pending then this else this.(pending := true, queued := true)
    }

    function SecretEvent(meta: Option<Version>): Cell {
      if Fresh(meta) then this else
      this.(entry := None, queued := queued || pending,
            worker := if worker.Reading? then worker.(cancelled := true) else worker)
    }

    function Taken(): Cell {
      this.(queued := false, worker := Holding)
    }

    /** The first half of a fetch; `demanded` says that some Cluster using the CA has demand. */
    function Began(meta: Option<Version>, ready: bool, demanded: bool): Cell {
      if !ready then this.(retries := retries + 1, worker := Leaving)
      else if meta.None? || !demanded || Fresh(meta) then this.(pending := false, worker := Leaving)
      else this.(worker := Reading(meta.value, false))
    }

    /** The read succeeded, was not cancelled or timed out, and saw the version that the informer
        held when it began and holds now. */
    predicate Verifies(ca: Option<Entry>, meta: Option<Version>, expired: bool, ready: bool)
      requires worker.Reading?
    {
      && ca.Some? && !worker.cancelled && !expired && ready && meta == Some(worker.meta)
         && ca.value.version == worker.meta
    }

    /** The second half of a fetch, with what the API server returned. */
    function Ended(ca: Option<Entry>, meta: Option<Version>, expired: bool, ready: bool, demanded: bool): Cell
      requires worker.Reading?
    {
      if !Verifies(ca, meta, expired, ready) then this.(retries := retries + 1, worker := Leaving)
      else if !demanded then this.(pending := false, worker := Leaving)
      else this.(entry := ca, pending := false, worker := Leaving)
    }

    function Pruned(demanded: bool): Cell {
      if demanded then this else this.(entry := None)
    }
  }

  const EMPTY := Cell(None, false, false, 0, Idle)

  class CACache {
    var cas: map<SecretKey, Entry>
    var pending: set<SecretKey>
    var queued: set<SecretKey>
    var retries: map<SecretKey, nat>
    var workers: map<SecretKey, Worker>

    ghost function Value(key: SecretKey): Cell
      reads this
    {
      Cell(if key in cas then Some(cas[key]) else None, key in pending, key in queued,
           if key in retries then retries[key] else 0, if key in workers then workers[key] else Idle)
    }

    constructor ()
      ensures forall k :: Value(k) == EMPTY
    {
      cas, pending, queued, retries, workers := map[], {}, {}, map[], map[];
    }

    /** `ca` was cached under `key`. */
    method CurrentCA(key: SecretKey, ca: Option<Entry>, meta: Option<Version>) returns (current: bool)
      ensures current == Value(key).Current(ca, meta)
    {
      if ca.None? || key !in cas || cas[key] != ca.value {
        return false;
      }
      current := meta.Some? && meta.value.uid == ca.value.version.uid
                 && meta.value.resourceVersion == ca.value.version.resourceVersion;
    }

    method Cached(key: SecretKey) returns (ca: Option<Entry>)
      ensures ca == Value(key).entry
    {
      ca := if key in cas then Some(cas[key]) else None;
    }

    method CachedConnection(key: SecretKey, meta: Option<Version>) returns (ca: Option<Entry>)
      modifies this`pending, this`queued
      ensures Value(key) == old(Value(key)).Asked(meta)
      ensures ca == if old(Value(key)).Fresh(meta) then old(Value(key)).entry else None
      ensures forall k :: k != key ==> Value(k) == old(Value(k))
    {
      var cached := Cached(key);
      var current := CurrentCA(key, cached, meta);
      if current {
        return cached;
      }
      ca := None;
      if meta.None? {
        return;
      }
      if key !in pending {
        pending := pending + {key};
        queued := queued + {key};
      }
    }

    method SecretEvent(key: SecretKey, meta: Option<Version>) returns (stale: bool)
      modifies this
      ensures Value(key) == old(Value(key)).SecretEvent(meta)
      ensures stale <==> !old(Value(key)).Fresh(meta)
      ensures forall k :: k != key ==> Value(k) == old(Value(k))
    {
      var cached := Cached(key);
      var current := CurrentCA(key, cached, meta);
      if current {
        return false;
      }
      cas := cas - {key};
      if key in workers && workers[key].Reading? {
        workers := workers[key := workers[key].(cancelled := true)];
      }
      if key in pending {
        queued := queued + {key};
      }
      stale := true;
    }

    method Retry(key: SecretKey)
      modifies this`retries, this`workers
      ensures Value(key) == old(Value(key).(retries := Value(key).retries + 1, worker := Leaving))
      ensures forall k :: k != key ==> Value(k) == old(Value(k))
    {
      retries := retries[key := (if key in retries then retries[key] else 0) + 1];
      workers := workers[key := Leaving];
    }

    method BeginFetch(key: SecretKey, meta: Option<Version>, ready: bool, demanded: bool)
      modifies this
      ensures Value(key) == old(Value(key)).Began(meta, ready, demanded)
      ensures forall k :: k != key ==> Value(k) == old(Value(k))
    {
      if !ready {
        Retry(key);
        return;
      }
      var cached := Cached(key);
      var current := CurrentCA(key, cached, meta);
      if meta.None? || !demanded || current {
        pending := pending - {key};
        workers := workers[key := Leaving];
        return;
      }
      workers := workers[key := Reading(meta.value, false)];
    }

    method EndFetch(key: SecretKey, ca: Option<Entry>, meta: Option<Version>, expired: bool, ready: bool,
                    demanded: bool)
        returns (done: bool)
      requires key in workers && workers[key].Reading?
      modifies this
      ensures Value(key) == old(Value(key)).Ended(ca, meta, expired, ready, demanded)
      ensures done == old(Value(key)).Verifies(ca, meta, expired, ready)
      ensures forall k :: k != key ==> Value(k) == old(Value(k))
    {
      var began := workers[key];
      if ca.None? {
        Retry(key);
        return false;
      }
      if began.cancelled || expired || !ready || meta.None? || meta.value != began.meta
          || ca.value.version != meta.value {
        Retry(key);
        return false;
      }
      workers := workers[key := Leaving];
      pending := pending - {key};
      if demanded {
        cas := cas[key := ca.value];
      }
      done := true;
    }

    /** Drops the entries of Secrets that no demanded Cluster uses. */
    method Prune(demanded: set<SecretKey>)
      modifies this`cas
      ensures forall k :: Value(k) == old(Value(k)).Pruned(k in demanded)
    {
      var rest := cas.Keys;
      while rest != {}
        invariant rest <= cas.Keys && cas.Keys <= old(cas).Keys
        invariant forall k :: k in old(cas) ==>
                                (k in cas <==> k in rest || k in demanded) && (k in cas ==> cas[k] == old(cas)[k])
        decreases rest
      {
        var key :| key in rest;
        rest := rest - {key};
        if key !in demanded {
          cas := cas - {key};
        }
      }
    }
  }
}
