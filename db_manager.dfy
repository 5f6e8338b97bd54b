/** `DatabaseManager`: the four SQLite tables of the application as
    in-memory state. The processing history is append-only, the
    transcription cache is an upsert keyed by file hash, preferences are an
    upsert keyed by name, and the statistics are a single running record.
    A query that raises inside SQLite is the parameter `fault`; the clock
    behind `CURRENT_TIMESTAMP` is the field `clock`, in whole seconds. */
module Database {
  import opened Common
  import opened ContentAnalysis

  const SECONDS_PER_DAY: nat := 86400

  /** One row of `processing_history`. */
  datatype HistoryRow = HistoryRow(
    id: nat, filename: string, fileSize: int, duration: real, processingTime: real,
    featuresUsed: seq<string>, createdAt: int, status: string)

  /** One row of `transcription_cache`, keyed by its file hash. */
  datatype CacheEntry = CacheEntry(filename: string, modelUsed: string, transcript: Json, captions: seq<Json>, createdAt: int)

  /** What `get_cached_transcription` hands back on a hit. */
  datatype CachedTranscription = CachedTranscription(transcript: Json, captions: seq<Json>, cachedAt: int)

  /** The single `app_statistics` record. */
  datatype Statistics = Statistics(videosProcessed: nat, totalProcessingTime: real, totalTimeSaved: real, featuresUsage: map<string, nat>)

  /** What `get_statistics` reports when there is no record yet. */
  const NO_STATISTICS: Statistics := Statistics(0, 0.0, 0.0, map[])

  // ---------------------------------------------------------------------
  // The transcription cache

  /** The `SELECT ... WHERE file_hash = ? AND model_used = ?` lookup. */
  function Lookup(cache: map<string, CacheEntry>, fileHash: string, modelUsed: string): (r: Option<CachedTranscription>)
  {
    if fileHash in cache && cache[fileHash].modelUsed == modelUsed
    then Some(CachedTranscription(cache[fileHash].transcript, cache[fileHash].captions, cache[fileHash].createdAt))
    else None
  }

  /** A hit needs both the hash and the model to match, and returns the stored data. */
  lemma LookupHit(cache: map<string, CacheEntry>, fileHash: string, modelUsed: string)
    ensures Lookup(cache, fileHash, modelUsed).Some? <==> fileHash in cache && cache[fileHash].modelUsed == modelUsed
    ensures Lookup(cache, fileHash, modelUsed).Some? ==>
      var e := cache[fileHash];
      Lookup(cache, fileHash, modelUsed).value == CachedTranscription(e.transcript, e.captions, e.createdAt)
  {
  }

  /** Last write wins: after two writes for the same hash only the second is
      visible, under its own model; a lookup under the first model misses. */
  lemma CacheLastWriteWins(cache: map<string, CacheEntry>, fileHash: string, e1: CacheEntry, e2: CacheEntry, m: string)
    ensures Lookup(cache[fileHash := e1][fileHash := e2], fileHash, m) ==
      if m == e2.modelUsed then Some(CachedTranscription(e2.transcript, e2.captions, e2.createdAt)) else None
    ensures e1.modelUsed != e2.modelUsed ==> Lookup(cache[fileHash := e1][fileHash := e2], fileHash, e1.modelUsed).None?
  {
  }

  /** A write for one hash leaves every lookup of another hash as it was. */
  lemma CacheOtherHash(cache: map<string, CacheEntry>, fileHash: string, e: CacheEntry, other: string, m: string)
    requires other != fileHash
    ensures Lookup(cache[fileHash := e], other, m) == Lookup(cache, other, m)
  {
  }

  /** The entries `DELETE ... WHERE created_at < cutoff` keeps. */
  function Evict(cache: map<string, CacheEntry>, cutoff: int): map<string, CacheEntry>
  {
    map h | h in cache && cache[h].createdAt >= cutoff :: cache[h]
  }

  /** Eviction after eviction with a later cutoff is the later eviction alone. */
  lemma EvictTwice(cache: map<string, CacheEntry>, a: int, b: int)
    requires a <= b
    ensures Evict(Evict(cache, a), b) == Evict(cache, b)
  {
  }

  // ---------------------------------------------------------------------
  // Statistics

  /** Number of times `x` occurs in `xs`. */
  function Occurrences(xs: seq<string>, x: string): nat
  {
    if xs == [] then 0 else Occurrences(xs[..|xs| - 1], x) + (if xs[|xs| - 1] == x then 1 else 0)
  }

  /** `dict.get(key, 0)`. */
  function UsageOf(usage: map<string, nat>, f: string): nat
  {
    if f in usage then usage[f] else 0
  }

  /** The increment loop of `update_statistics`: one more use per occurrence. */
  function Tally(usage: map<string, nat>, features: seq<string>): map<string, nat>
  {
    if features == [] then usage
    else
      var before := Tally(usage, features[..|features| - 1]);
      var f := features[|features| - 1];
      before[f := UsageOf(before, f) + 1]
  }

  /** The first record's `{feature: 1 for feature in features_used}`. */
  function FirstUsage(features: seq<string>): map<string, nat>
  {
    map f | f in features :: 1
  }

  /** The record after one more processed video. */
  function Bumped(current: Option<Statistics>, processingTime: real, features: seq<string>): Statistics
  {
    match current
    case None => Statistics(1, processingTime, 0.0, FirstUsage(features))
    case Some(s) => Statistics(s.videosProcessed + 1, s.totalProcessingTime + processingTime, s.totalTimeSaved, Tally(s.featuresUsage, features))
  }

  /** The tally adds each feature's number of occurrences to its count and
      adds no other key. */
  lemma {:induction false} TallyCounts(usage: map<string, nat>, features: seq<string>)
    ensures forall f :: UsageOf(Tally(usage, features), f) == UsageOf(usage, f) + Occurrences(features, f)
    ensures Tally(usage, features).Keys == usage.Keys + set f | f in features
  {
    if features != [] {
      var init := features[..|features| - 1];
      TallyCounts(usage, init);
      assert features == init + [features[|features| - 1]];
    }
  }

  /** The first record counts each listed feature once, however often it
      is listed. */
  lemma FirstUsageCounts(features: seq<string>)
    ensures FirstUsage(features).Keys == set f | f in features
    ensures forall f :: UsageOf(FirstUsage(features), f) == if f in features then 1 else 0
  {
  }

  /** So the first record agrees with the later counting rule exactly when
      no feature is listed twice. */
  lemma FirstUsageVsTally(features: seq<string>)
    ensures FirstUsage(features) == Tally(map[], features) <==>
      forall f :: f in features ==> Occurrences(features, f) == 1
  {
    TallyCounts(map[], features);
    if FirstUsage(features) == Tally(map[], features) {
      forall f | f in features
        ensures Occurrences(features, f) == 1
      {
        assert UsageOf(FirstUsage(features), f) == UsageOf(Tally(map[], features), f);
      }
    }
    if forall f :: f in features ==> Occurrences(features, f) == 1 {
      forall f | f in features
        ensures FirstUsage(features)[f] == Tally(map[], features)[f]
      {
        assert UsageOf(Tally(map[], features), f) == 1;
      }
    }
  }

  /** Every call counts one more video and adds its processing time. */
  lemma BumpedTotals(current: Option<Statistics>, processingTime: real, features: seq<string>)
    ensures Bumped(current, processingTime, features).videosProcessed == (if current.Some? then current.value.videosProcessed else 0) + 1
    ensures Bumped(current, processingTime, features).totalProcessingTime ==
      (if current.Some? then current.value.totalProcessingTime else 0.0) + processingTime
  {
  }

  // ---------------------------------------------------------------------
  // Processing history

  /** `ORDER BY created_at DESC LIMIT ?` over rows appended in time order;
      a negative limit means no limit. */
  function Newest(history: seq<HistoryRow>, limit: int): (r: seq<HistoryRow>)
  {
    var n := if limit < 0 || limit > |history| then |history| else limit;
    seq(n, i requires 0 <= i < n => history[|history| - 1 - i])
  }

  /** The newest `limit` rows (all of them for a negative limit), newest first. */
  lemma NewestRows(history: seq<HistoryRow>, limit: int)
    ensures |Newest(history, limit)| == if limit < 0 || limit > |history| then |history| else limit
    ensures forall i :: 0 <= i < |Newest(history, limit)| ==> Newest(history, limit)[i] == history[|history| - 1 - i]
  {
  }

  /** Rows in insertion order: increasing ids, non-decreasing timestamps. */
  ghost predicate Chronological(history: seq<HistoryRow>)
  {
    forall i, j :: 0 <= i < j < |history| ==> history[i].id < history[j].id && history[i].createdAt <= history[j].createdAt
  }

  /** On chronological rows the returned list is sorted newest first. */
  lemma NewestSorted(history: seq<HistoryRow>, limit: int)
    requires Chronological(history)
    ensures forall i, j :: 0 <= i < j < |Newest(history, limit)| ==>
      Newest(history, limit)[i].createdAt >= Newest(history, limit)[j].createdAt &&
      Newest(history, limit)[i].id > Newest(history, limit)[j].id
  {
    NewestRows(history, limit);
  }

  /** The rows left out are never newer than the rows returned: on
      chronological rows every omitted row is older (by id, and no later by
      time) than every returned one, and each returned row is in the table. */
  lemma NewestKeepsNewest(history: seq<HistoryRow>, limit: int)
    requires Chronological(history)
    ensures forall r :: r in Newest(history, limit) ==> r in history
    ensures forall i, r :: 0 <= i < |history| && history[i] !in Newest(history, limit) && r in Newest(history, limit) ==>
      history[i].id < r.id && history[i].createdAt <= r.createdAt
  {
    NewestRows(history, limit);
    var n := |Newest(history, limit)|;
    forall i | |history| - n <= i < |history|
      ensures history[i] in Newest(history, limit)
    {
      assert Newest(history, limit)[|history| - 1 - i] == history[i];
    }
    forall i, r | 0 <= i < |history| && history[i] !in Newest(history, limit) && r in Newest(history, limit)
      ensures history[i].id < r.id && history[i].createdAt <= r.createdAt
    {
      var a :| 0 <= a < n && Newest(history, limit)[a] == r;
      assert i < |history| - 1 - a;
    }
  }

  class DatabaseManager {
    const dbPath: string
    var history: seq<HistoryRow>
    /** The next AUTOINCREMENT id of `processing_history`. */
    var nextId: nat
    var cache: map<string, CacheEntry>
    var preferences: map<string, string>
    var stats: Option<Statistics>
    /** The database clock behind `CURRENT_TIMESTAMP`, in seconds. */
    var clock: int

    /** History rows are chronological, have ids below `nextId`, and no row
        or cache entry is stamped after the clock. */
    ghost predicate Valid()
      reads this
    {
      Chronological(history) &&
      (forall i :: 0 <= i < |history| ==> history[i].id < nextId && history[i].createdAt <= clock) &&
      (forall h :: h in cache ==> cache[h].createdAt <= clock)
    }

    /** `__init__` / `init_database`: empty tables. */
    constructor (path: string, now: int)
      ensures Valid()
      ensures dbPath == path && clock == now
      ensures history == [] && nextId == 1 && cache == map[] && preferences == map[] && stats == None
    {
      dbPath := path;
      history := [];
      nextId := 1;
      cache := map[];
      preferences := map[];
      stats := None;
      clock := now;
    }

    /** `__init__` on an existing database file: `CREATE TABLE IF NOT EXISTS`
        keeps every stored row, and AUTOINCREMENT goes on after the largest id. */
    constructor Reopen(path: string, now: int, rows: seq<HistoryRow>, next: nat, entries: map<string, CacheEntry>,
                       prefs: map<string, string>, record: Option<Statistics>)
      requires Chronological(rows)
      requires forall i :: 0 <= i < |rows| ==> rows[i].id < next && rows[i].createdAt <= now
      requires forall h :: h in entries ==> entries[h].createdAt <= now
      ensures Valid()
      ensures dbPath == path && clock == now
      ensures history == rows && nextId == next && cache == entries && preferences == prefs && stats == record
    {
      dbPath := path;
      history := rows;
      nextId := next;
      cache := entries;
      preferences := prefs;
      stats := record;
      clock := now;
    }

    /** The database clock moving on between calls; no source operation. */
    method Tick(seconds: nat)
      requires Valid()
      modifies this`clock
      ensures Valid() && clock == old(clock) + seconds
    {
      clock := clock + seconds;
    }

    /** `add_processing_record`: appends one `completed` row stamped now and
        returns its id, then updates the statistics, whose failure is
        swallowed. A failing insert raises (`None`) and changes nothing. */
    method AddProcessingRecord(filename: string, fileSize: int, duration: real, processingTime: real,
                               features: seq<string>, insertFault: bool, statsFault: bool)
      returns (id: Option<nat>)
      requires Valid()
      modifies this`history, this`nextId, this`stats
      ensures Valid()
      ensures insertFault ==> id.None? && history == old(history) && nextId == old(nextId) && stats == old(stats)
      ensures !insertFault ==>
        id == Some(old(nextId)) &&
        history == old(history) + [HistoryRow(old(nextId), filename, fileSize, duration, processingTime, features, clock, "completed")] &&
        nextId == old(nextId) + 1 &&
        stats == (if statsFault then old(stats) else Some(Bumped(old(stats), processingTime, features)))
    {
      if insertFault {
        return None;
      }
      history := history + [HistoryRow(nextId, filename, fileSize, duration, processingTime, features, clock, "completed")];
      id := Some(nextId);
      nextId := nextId + 1;
      UpdateStatistics(processingTime, features, statsFault);
    }

    /** `cache_transcription`: `INSERT OR REPLACE` on the unique hash, stamped
        now; `False` and no change when the statement fails. */
    method CacheTranscription(fileHash: string, filename: string, modelUsed: string,
                              transcript: Json, captions: seq<Json>, fault: bool)
      returns (ok: bool)
      requires Valid()
      modifies this`cache
      ensures Valid()
      ensures ok == !fault
      ensures fault ==> cache == old(cache)
      ensures !fault ==> cache == old(cache)[fileHash := CacheEntry(filename, modelUsed, transcript, captions, clock)]
    {
      if fault {
        return false;
      }
      cache := cache[fileHash := CacheEntry(filename, modelUsed, transcript, captions, clock)];
      ok := true;
    }

    /** `get_cached_transcription`: a hit only when hash and model both match;
        `None` when the query fails. */
    function GetCachedTranscription(fileHash: string, modelUsed: string, fault: bool): (r: Option<CachedTranscription>)
      reads this
      ensures fault ==> r.None?
      ensures !fault ==> r == Lookup(cache, fileHash, modelUsed)
    {
      if fault then None else Lookup(cache, fileHash, modelUsed)
    }

    /** `get_processing_history`: the newest `limit` rows, newest first; `[]`
        when the query fails. */
    function GetProcessingHistory(fault: bool, limit: int := 50): (r: seq<HistoryRow>)
      reads this
      ensures fault ==> r == []
      ensures !fault ==> r == Newest(history, limit)
    {
      if fault then [] else Newest(history, limit)
    }

    /** `update_statistics`: creates the record on the first call, otherwise
        counts one more video, adds the time and counts each listed feature
        once per occurrence. A failure is logged and leaves the record. */
    method UpdateStatistics(processingTime: real, features: seq<string>, fault: bool)
      modifies this`stats
      ensures fault ==> stats == old(stats)
      ensures !fault ==> stats == Some(Bumped(old(stats), processingTime, features))
    {
      if fault {
        return;
      }
      match stats
      case None =>
        stats := Some(Statistics(1, processingTime, 0.0, map f | f in features :: 1));
      case Some(s) =>
        var usage := s.featuresUsage;
        var i := 0;
        while i < |features|
          invariant 0 <= i <= |features|
          invariant usage == Tally(s.featuresUsage, features[..i])
        {
          assert features[..i + 1][..i] == features[..i];
          usage := usage[features[i] := UsageOf(usage, features[i]) + 1];
          i := i + 1;
        }
        assert features[..i] == features;
        stats := Some(Statistics(s.videosProcessed + 1, s.totalProcessingTime + processingTime, s.totalTimeSaved, usage));
    }

    /** `get_statistics`: the record, zero counts when there is none, and
        `None` (the empty dictionary) when the query fails. */
    function GetStatistics(fault: bool): (r: Option<Statistics>)
      reads this
      ensures fault ==> r.None?
      ensures !fault && stats.None? ==> r == Some(NO_STATISTICS)
      ensures !fault && stats.Some? ==> r == stats
    {
      if fault then None else Some(stats.GetOr(NO_STATISTICS))
    }

    /** `set_preference`: upsert by key; a failure is logged and changes nothing. */
    method SetPreference(key: string, value: string, fault: bool)
      modifies this`preferences
      ensures fault ==> preferences == old(preferences)
      ensures !fault ==> preferences == old(preferences)[key := value]
    {
      if !fault {
        preferences := preferences[key := value];
      }
    }

    /** `get_preference`: the stored value, else `default` (also on failure). */
    function GetPreference(key: string, fault: bool, default: Option<string> := None): (r: Option<string>)
      reads this
      ensures !fault && key in preferences ==> r == Some(preferences[key])
      ensures fault || key !in preferences ==> r == default
    {
      if !fault && key in preferences then Some(preferences[key]) else default
    }

    /** `cleanup_old_cache`: deletes exactly the entries stamped before
        `days` days ago and keeps the others as they were. */
    method CleanupOldCache(fault: bool, days: nat := 30) returns (deleted: nat)
      requires Valid()
      modifies this`cache
      ensures Valid()
      ensures fault ==> cache == old(cache) && deleted == 0
      ensures !fault ==> cache == Evict(old(cache), clock - days * SECONDS_PER_DAY)
      ensures !fault ==> forall h :: h in cache <==> h in old(cache) && old(cache)[h].createdAt >= clock - days * SECONDS_PER_DAY
      ensures !fault ==> deleted == |old(cache).Keys| - |cache.Keys|
    {
      if fault {
        return 0;
      }
      var before := cache;
      cache := Evict(cache, clock - days * SECONDS_PER_DAY);
      assert cache.Keys <= before.Keys;
      SubsetCard(cache.Keys, before.Keys);
      deleted := |before.Keys| - |cache.Keys|;
    }
  }

  lemma SubsetCard<T>(a: set<T>, b: set<T>)
    requires a <= b
    ensures |a| <= |b|
  {
    if a != {} {
      var x :| x in a;
      SubsetCard(a - {x}, b - {x});
    }
  }
}
