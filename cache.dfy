/**
 * `CacheManager`: a file-per-entry cache with a time-to-live per category. The cache
 * directory is a map from file name to what reading the file yields; the clock is a
 * parameter and the SHA-256 hex digest of the key-sorted JSON input is a constructor argument.
 */
module Caching {
  import opened Wrappers
  import opened Strs
  import opened Json

  /** Time-to-live in seconds per category; "default" is the fallback. */
  const TtlConfig: map<string, nat> :=
    map["tool_research" := 3600, "tool_code" := 300, "tool_data" := 1800, "agent_response" := 600, "default" := 900]

  /** `ttl_config.get(category, ttl_config["default"])` */
  function Ttl(category: string): (t: nat)
    ensures category in TtlConfig ==> t == TtlConfig[category]
    ensures category !in TtlConfig ==> t == 900
    ensures 300 <= t <= 3600
  {
    if category in TtlConfig then TtlConfig[category] else TtlConfig["default"]
  }

  /** What loading a cache file yields: the pickled record, or a failure (a truncated file,
      a record without its fields). */
  datatype StoredFile = Readable(timestamp: real, category: string, input: Dict, value: Json) | Corrupt

  /** How writing a cache file ends: written, opened (and so truncated) but not pickled, or
      not opened at all. */
  datatype WriteOutcome = Written | DumpFails | OpenFails

  const Suffix: string := ".cache"

  /** `_get_cache_path`: the file name of a key. */
  function FileName(key: string): (name: string)
    ensures StartsWith(name, key) && EndsWith(name, Suffix)
  {
    key + Suffix
  }

  /** An entry is stale once strictly more than its time-to-live has passed. */
  predicate Expired(timestamp: real, ttl: nat, now: real) {
    now - timestamp > ttl as real
  }

  /** The value `get` returns from the directory `files`. */
  function Fetch(files: map<string, StoredFile>, name: string, ttl: nat, now: real): (r: Option<Json>)
    ensures r.Some? <==> name in files && files[name].Readable? && !Expired(files[name].timestamp, ttl, now)
    ensures r.Some? ==> r.value == files[name].value
  {
    if name !in files then None
    else match files[name]
      case Corrupt => None
      case Readable(ts, _, _, v) => if Expired(ts, ttl, now) then None else Some(v)
  }

  /** The directory after `get`: an unreadable or stale file is deleted, nothing else changes. */
  function AfterFetch(files: map<string, StoredFile>, name: string, ttl: nat, now: real): (r: map<string, StoredFile>)
    ensures r.Keys <= files.Keys && forall n :: n in r ==> r[n] == files[n]
    ensures name !in files ==> r == files
    ensures name in files ==> (name in r <==> Fetch(files, name, ttl, now).Some?)
    ensures forall n :: n in files && n != name ==> n in r
  {
    if name in files && Fetch(files, name, ttl, now).None? then files - {name} else files
  }

  /** The directory after `set`: the new record, a file that will not load, or no change. */
  function AfterStore(files: map<string, StoredFile>, name: string, entry: StoredFile, outcome: WriteOutcome)
    : (r: map<string, StoredFile>)
    ensures outcome == Written ==> name in r && r[name] == entry
    ensures outcome == DumpFails ==> name in r && r[name] == Corrupt
    ensures outcome == OpenFails ==> r == files
    ensures forall n :: n != name ==> (n in r <==> n in files) && (n in r ==> r[n] == files[n])
  {
    match outcome
    case Written => files[name := entry]
    case DumpFails => files[name := Corrupt]
    case OpenFails => files
  }

  /** The files `clear(category)` deletes: all of them for no category or an empty one, else
      those whose names start with the category and "_". */
  predicate Selected(name: string, category: Option<string>) {
    category.None? || category.value == "" || StartsWith(name, category.value + "_")
  }

  function ClearedNames(names: set<string>, category: Option<string>): set<string> {
    set n | n in names && Selected(n, category)
  }

  function KeptFiles(files: map<string, StoredFile>, category: Option<string>): (r: map<string, StoredFile>)
    ensures forall n :: n in r <==> n in files && !Selected(n, category)
    ensures forall n :: n in r ==> r[n] == files[n]
  {
    map n | n in files && !Selected(n, category) :: files[n]
  }

  /** Taking one more name out of the pending ones adds it to the deleted ones exactly when
      it is selected. */
  lemma ClearedNamesStep(all: set<string>, pending: set<string>, name: string, category: Option<string>)
    requires name in pending && pending <= all
    ensures Selected(name, category) ==>
      |ClearedNames(all - (pending - {name}), category)| == |ClearedNames(all - pending, category)| + 1
    ensures !Selected(name, category) ==>
      ClearedNames(all - (pending - {name}), category) == ClearedNames(all - pending, category)
  {
    var before := ClearedNames(all - pending, category);
    if Selected(name, category) {
      assert ClearedNames(all - (pending - {name}), category) == before + {name};
    }
  }

  /** Without a category, or with an empty one, `clear` empties the directory and counts
      every file. */
  lemma ClearAll(files: map<string, StoredFile>, category: Option<string>)
    requires category.None? || category.value == ""
    ensures KeptFiles(files, category) == map[]
    ensures |ClearedNames(files.Keys, category)| == |files|
  {
    assert ClearedNames(files.Keys, category) == files.Keys;
  }

  /** Every file is either deleted and counted or kept. */
  lemma ClearPartition(files: map<string, StoredFile>, category: Option<string>)
    ensures |ClearedNames(files.Keys, category)| + |KeptFiles(files, category)| == |files|
  {
    var gone := ClearedNames(files.Keys, category);
    assert KeptFiles(files, category).Keys == files.Keys - gone;
  }

  /** The name text `get_stats` groups by, as the code has it: everything before the first "_". */
  function GroupAsWritten(name: string): string {
    FirstSegment(name, '_')
  }

  /** The category a file name was made from: everything before the last "_" (the digest part
      holds none); a name without "_" is its own group. */
  function CategoryOfName(name: string): (c: string)
    ensures |c| <= |name|
  {
    if '_' in name then
      var tail := LastSegment(name, '_');
      if |tail| + 1 <= |name| then name[..|name| - |tail| - 1] else name
    else name
  }

  /** The names of `names` in group `g`. */
  function InGroup(names: set<string>, group: string -> string, g: string): set<string> {
    set n | n in names && group(n) == g
  }

  /** The groups of `names`. */
  function Groups(names: set<string>, group: string -> string): set<string> {
    set n | n in names :: group(n)
  }

  /** `by_category` counts: every group of some name, with its number of names. */
  function GroupCounts(names: set<string>, group: string -> string): map<string, nat> {
    map g | g in Groups(names, group) :: |InGroup(names, group, g)|
  }

  /** Each name's group is counted, at least once. */
  lemma GroupCountsCover(names: set<string>, group: string -> string, n: string)
    requires n in names
    ensures group(n) in GroupCounts(names, group) && GroupCounts(names, group)[group(n)] >= 1
  {
    assert n in InGroup(names, group, group(n));
  }

  /** One more name adds one to the size of its own group only. */
  lemma InGroupAdd(names: set<string>, group: string -> string, n: string, g: string)
    requires n !in names
    ensures |InGroup(names + {n}, group, g)| == |InGroup(names, group, g)| + (if group(n) == g then 1 else 0)
  {
    if group(n) == g {
      assert InGroup(names + {n}, group, g) == InGroup(names, group, g) + {n};
    } else {
      assert InGroup(names + {n}, group, g) == InGroup(names, group, g);
    }
  }

  /** A group no name falls in has size zero. */
  lemma NotAGroup(names: set<string>, group: string -> string, g: string)
    requires g !in Groups(names, group)
    ensures |InGroup(names, group, g)| == 0
  {
  }

  /** One more name adds one to its group and leaves the other groups alone. */
  lemma GroupCountsAdd(names: set<string>, group: string -> string, n: string)
    requires n !in names
    ensures var g := group(n); var m := GroupCounts(names, group);
      GroupCounts(names + {n}, group) == m[g := (if g in m then m[g] else 0) + 1]
  {
    var g := group(n);
    var m := GroupCounts(names, group);
    var m' := GroupCounts(names + {n}, group);
    var expected := m[g := (if g in m then m[g] else 0) + 1];
    assert Groups(names + {n}, group) == Groups(names, group) + {g};
    forall h | h in m'
      ensures m'[h] == expected[h]
    {
      InGroupAdd(names, group, n, h);
      if h !in m {
        NotAGroup(names, group, h);
      }
    }
  }

  /** The counting loop of `get_stats`: one pass over the names, adding one to the total and
      to the name's group. */
  method CountGroups(names: set<string>, group: string -> string) returns (total: nat, byGroup: map<string, nat>)
    ensures total == |names|
    ensures byGroup == GroupCounts(names, group)
  {
    var pending := names;
    total := 0;
    byGroup := map[];
    while pending != {}
      invariant pending <= names
      invariant total == |names - pending|
      invariant byGroup == GroupCounts(names - pending, group)
      decreases |pending|
    {
      var name :| name in pending;
      var done := names - pending;
      assert names - (pending - {name}) == done + {name};
      GroupCountsAdd(done, group, name);
      var g := group(name);
      var seen := if g in byGroup then byGroup[g] else 0;
      byGroup := byGroup[g := seen + 1];
      total := total + 1;
      pending := pending - {name};
    }
    assert names - pending == names;
  }

  /** `get_stats` without the byte sizes. */
  datatype CacheStats = CacheStats(totalEntries: nat, byCategory: map<string, nat>)

  class CacheManager {
    /** The hex digest of the key-sorted JSON of an input. */
    const digest: Dict -> string
    /** The cache directory: file name to the outcome of loading it. */
    var files: map<string, StoredFile>

    /** A manager over a directory that may already hold files. */
    constructor (digest: Dict -> string, existing: map<string, StoredFile>)
      ensures this.digest == digest && files == existing
    {
      this.digest := digest;
      files := existing;
    }

    /** `_get_cache_key`: the category, "_" and the first 16 digest characters; equal inputs
        give equal keys. */
    function CacheKey(category: string, data: Dict): (key: string)
      ensures StartsWith(key, category + "_")
      ensures |key| == |category| + 1 + (if |digest(data)| <= 16 then |digest(data)| else 16)
    {
      category + "_" + Take(digest(data), 16)
    }

    /** `get`: the stored value when the file loads and is fresh; otherwise none, and an
        unreadable or stale file is deleted. */
    method Get(category: string, data: Dict, now: real) returns (r: Option<Json>)
      modifies this
      ensures r == Fetch(old(files), FileName(CacheKey(category, data)), Ttl(category), now)
      ensures files == AfterFetch(old(files), FileName(CacheKey(category, data)), Ttl(category), now)
    {
      var name := FileName(CacheKey(category, data));
      if name !in files {
        return None;
      }
      match files[name]
      case Corrupt =>
        files := files - {name};
        r := None;
      case Readable(ts, _, _, v) =>
        if now - ts > Ttl(category) as real {
          files := files - {name};
          r := None;
        } else {
          r := Some(v);
        }
    }

    /** `set`: the record stamped `now` replaces the file, unless writing fails. */
    method Set(category: string, data: Dict, value: Json, now: real, outcome: WriteOutcome)
      modifies this
      ensures files == AfterStore(old(files), FileName(CacheKey(category, data)),
                                  Readable(now, category, data, value), outcome)
    {
      var name := FileName(CacheKey(category, data));
      match outcome
      case Written => files := files[name := Readable(now, category, data, value)];
      case DumpFails => files := files[name := Corrupt];
      case OpenFails =>
    }

    /** `clear`: deletes the selected files one by one and returns how many it deleted. */
    method Clear(category: Option<string>) returns (count: nat)
      modifies this
      ensures files == KeptFiles(old(files), category)
      ensures count == |ClearedNames(old(files).Keys, category)|
    {
      ghost var start := files;
      var pending := files.Keys;
      count := 0;
      while pending != {}
        invariant pending <= start.Keys
        invariant forall n :: n in files <==> n in start && (n in pending || !Selected(n, category))
        invariant forall n :: n in files ==> files[n] == start[n]
        invariant count == |ClearedNames(start.Keys - pending, category)|
        decreases |pending|
      {
        var name :| name in pending;
        ClearedNamesStep(start.Keys, pending, name, category);
        if Selected(name, category) {
          files := files - {name};
          count := count + 1;
        }
        pending := pending - {name};
      }
      assert start.Keys - pending == start.Keys;
    }

    /** `get_stats`: every file counted once and grouped by the category its name carries. */
    method GetStats() returns (stats: CacheStats)
      ensures stats.totalEntries == |files|
      ensures stats.byCategory == GroupCounts(files.Keys, CategoryOfName)
    {
      var total, byCategory := CountGroups(files.Keys, CategoryOfName);
      stats := CacheStats(total, byCategory);
    }

    /** Every entry written under a category is selected by `clear` of that category. */
    lemma ClearTakesCategory(category: string, data: Dict)
      ensures Selected(FileName(CacheKey(category, data)), Some(category))
    {
      var key := CacheKey(category, data);
      assert FileName(key)[..|category + "_"|] == key[..|category + "_"|];
    }

    /** A file written under a category is grouped under that very category, since the
        digest part of its name holds no "_". */
    lemma CategoryOfKey(category: string, data: Dict)
      requires '_' !in digest(data)
      ensures CategoryOfName(FileName(CacheKey(category, data))) == category
    {
      var tail := Take(digest(data), 16) + Suffix;
      assert '_' !in Take(digest(data), 16) by {
        assert Take(digest(data), 16) == digest(data)[..|Take(digest(data), 16)|];
      }
      assert '_' !in tail;
      var name := FileName(CacheKey(category, data));
      assert name == category + ['_'] + tail;
      LastSegmentAfterSep(category, '_', tail);
      assert name[|category|] == '_';
    }

    /** As written, `get_stats` groups an entry by the part of its category before the
        first "_", so categories sharing that part share a group. */
    lemma AsWrittenGroupsByFirstWord(head: string, rest: string, data: Dict)
      requires '_' !in head
      ensures GroupAsWritten(FileName(CacheKey(head + "_" + rest, data))) == head
    {
      var tail := rest + "_" + Take(digest(data), 16) + Suffix;
      assert FileName(CacheKey(head + "_" + rest, data)) == head + ['_'] + tail;
      FirstSegmentBeforeSep(head, '_', tail);
    }

    /** "tool_research", "tool_code" and "tool_data" entries all land in the group "tool". */
    lemma AsWrittenMergesToolCategories(d1: Dict, d2: Dict)
      ensures GroupAsWritten(FileName(CacheKey("tool_research", d1))) == "tool"
      ensures GroupAsWritten(FileName(CacheKey("tool_code", d2))) == "tool"
    {
      assert "tool_research" == "tool" + "_" + "research";
      assert "tool_code" == "tool" + "_" + "code";
      AsWrittenGroupsByFirstWord("tool", "research", d1);
      AsWrittenGroupsByFirstWord("tool", "code", d2);
    }
  }

  /** After a successful `set` at time `t`, `get` of the same input returns the value for as
      long as at most the category's time-to-live has passed, and keeps the file. */
  lemma SetThenGet(files: map<string, StoredFile>, name: string, entry: StoredFile, now: real)
    requires entry.Readable? && !Expired(entry.timestamp, Ttl(entry.category), now)
    ensures var stored := AfterStore(files, name, entry, Written);
      Fetch(stored, name, Ttl(entry.category), now) == Some(entry.value) &&
      AfterFetch(stored, name, Ttl(entry.category), now) == stored
  {
  }

  /** A stale file is gone after `get`, which returns none. */
  lemma StaleIsDeleted(files: map<string, StoredFile>, name: string, ttl: nat, now: real)
    requires name in files && files[name].Readable? && Expired(files[name].timestamp, ttl, now)
    ensures Fetch(files, name, ttl, now) == None
    ensures name !in AfterFetch(files, name, ttl, now)
  {
  }
}
