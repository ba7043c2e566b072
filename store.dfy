/** The request store of utils.py: a process-wide cache (`_data_cache`) of
    `{"requests": {str(id): record}, "counter": n}`, loaded lazily from one
    JSON data file and written back in full after every change. */
module Store {
  import opened Wrappers
  import opened Records

  /** The stored `counter`: a value that `int()` accepts, with the integer it
      yields, or one that it refuses. */
  datatype Counter = Num(n: int) | NotAnInt

  /** The loaded store. The source keys `requests` by `str(id)`; `str` is
      one-to-one on integers, so the map is keyed by the id itself. */
  datatype Snapshot = Snapshot(requests: map<int, Request>, counter: Counter)

  /** The data file `DATA_FILE_PATH`. */
  datatype DataFile =
    | NoFile
      /** Not valid JSON, or unreadable. */
    | Unreadable
      /** A JSON object; a top-level key that is absent is None. */
    | Json(requests: Option<map<int, Request>>, counter: Option<Counter>)

  /** `{"requests": {}, "counter": 0}`. */
  const EMPTY: Snapshot := Snapshot(map[], Num(0))

  /** What `_save_data` writes: the whole snapshot. */
  function Written(s: Snapshot): DataFile {
    Json(Some(s.requests), Some(s.counter))
  }

  /** The cache after `_load_data`: a loaded cache is kept as it is; a missing
      or unreadable file gives the empty store; a JSON object gets its missing
      top-level keys filled with the defaults. */
  function Loaded(cache: Option<Snapshot>, file: DataFile): (s: Snapshot)
    ensures cache.Some? ==> s == cache.value
    ensures cache.None? && !file.Json? ==> s == EMPTY
    ensures cache.None? && file.Json? ==>
              (file.requests.Some? ==> s.requests == file.requests.value) &&
              (file.requests.None? ==> s.requests == map[]) &&
              (file.counter.Some? ==> s.counter == file.counter.value) &&
              (file.counter.None? ==> s.counter == Num(0))
  {
    match cache
    case Some(c) => c
    case None =>
      match file
      case NoFile => EMPTY
      case Unreadable => EMPTY
      case Json(r, c) =>
        Snapshot(if r.Some? then r.value else map[], if c.Some? then c.value else Num(0))
  }

  /** The data file after `_load_data`: only a missing file is created (with
      the empty store); an unreadable one is left as it is. */
  function FileAfterLoad(cache: Option<Snapshot>, file: DataFile): (f: DataFile)
    ensures f != file ==> cache.None? && file == NoFile && f == Written(EMPTY)
  {
    if cache.None? && file == NoFile then Written(EMPTY) else file
  }

  /** `int(counter)`, or 0 when the stored counter is not an integer. */
  function CounterValue(c: Counter): int {
    match c
    case Num(n) => n
    case NotAnInt => 0
  }

  /** The ids that `k` successive `get_next_request_id` calls hand out,
      starting from the stored counter `c`. */
  function IssuedIds(c: Counter, k: nat): (ids: seq<int>)
    ensures |ids| == k
    decreases k
  {
    if k == 0 then [] else [CounterValue(c) + 1] + IssuedIds(Num(CounterValue(c) + 1), k - 1)
  }

  /** The `i`-th id handed out is the counter plus `i + 1`. */
  lemma {:induction false} IssuedIdsAt(c: Counter, k: nat, i: nat)
    requires i < k
    ensures IssuedIds(c, k)[i] == CounterValue(c) + 1 + i
    decreases k
  {
    if i > 0 {
      IssuedIdsAt(Num(CounterValue(c) + 1), k - 1, i - 1);
    }
  }

  /** Successive ids strictly increase, so no id is handed out twice. */
  lemma IssuedIdsIncrease(c: Counter, k: nat)
    ensures forall i, j :: 0 <= i < j < k ==> IssuedIds(c, k)[i] < IssuedIds(c, k)[j]
  {
    forall i, j | 0 <= i < j < k
      ensures IssuedIds(c, k)[i] < IssuedIds(c, k)[j]
    {
      IssuedIdsAt(c, k, i);
      IssuedIdsAt(c, k, j);
    }
  }

  /** A snapshot written by `_save_data` and read back by a fresh process is
      the same snapshot, so ids carry on across restarts. */
  lemma ReloadIsIdentity(s: Snapshot)
    ensures Loaded(None, Written(s)) == s
    ensures IssuedIds(Loaded(None, Written(s)).counter, 1) == [CounterValue(s.counter) + 1]
  {
  }

  /** The store object: `_data_cache` and the data file it mirrors. */
  class RequestStore {
    /** `_data_cache`; None until the first access. */
    var cache: Option<Snapshot>
    /** What the data file holds. */
    var file: DataFile

    /** A process starting with the given data file and an empty cache. */
    constructor (initial: DataFile)
      ensures cache == None && file == initial
    {
      cache := None;
      file := initial;
    }

    /** `_load_data`. */
    method Load() returns (s: Snapshot)
      modifies this
      ensures s == Loaded(old(cache), old(file)) && cache == Some(s)
      ensures file == FileAfterLoad(old(cache), old(file))
    {
      if cache.Some? {
        return cache.value;
      }
      match file {
        case NoFile =>
          cache := Some(EMPTY);
          file := Written(EMPTY);
        case Unreadable =>
          cache := Some(EMPTY);
        case Json(r, c) =>
          var loaded := Snapshot(if r.Some? then r.value else map[], if c.Some? then c.value else Num(0));
          cache := Some(loaded);
      }
      s := cache.value;
    }

    /** `get_request_data(id)`: the record stored under `str(id)`, if any. */
    method Get(id: int) returns (r: Option<Request>)
      modifies this
      ensures cache == Some(Loaded(old(cache), old(file)))
      ensures file == FileAfterLoad(old(cache), old(file))
      ensures r.Some? <==> id in cache.value.requests
      ensures r.Some? ==> r.value == cache.value.requests[id]
    {
      var s := Load();
      r := if id in s.requests then Some(s.requests[id]) else None;
    }

    /** `save_request_data(id, r)`: store under `str(id)` and write the file;
        every other record and the counter are unchanged. */
    method Save(id: int, r: Request)
      modifies this
      ensures var s := Loaded(old(cache), old(file));
              cache == Some(Snapshot(s.requests[id := r], s.counter))
      ensures file == Written(cache.value)
    {
      var s := Load();
      cache := Some(s.(requests := s.requests[id := r]));
      file := Written(cache.value);
    }

    /** Assignments to the dict that `get_request_data` returned: that dict is
        the cached record itself, so the change is in the cache at once but
        reaches the file only with the next `_save_data`. */
    method UpdateCached(id: int, r: Request)
      requires cache.Some? && id in cache.value.requests
      modifies this
      ensures cache == Some(old(cache.value).(requests := old(cache.value.requests)[id := r]))
      ensures file == old(file)
    {
      cache := Some(cache.value.(requests := cache.value.requests[id := r]));
    }

    /** `get_next_request_id`: the stored counter plus one, which becomes the
        new counter and is written to the file. */
    method NextId() returns (id: int)
      modifies this
      ensures var s := Loaded(old(cache), old(file));
              id == CounterValue(s.counter) + 1 && cache == Some(s.(counter := Num(id)))
      ensures file == Written(cache.value)
    {
      var s := Load();
      var current := match s.counter case Num(n) => n case NotAnInt => 0;
      id := current + 1;
      cache := Some(s.(counter := Num(id)));
      file := Written(cache.value);
    }
  }
}
