// The agent's cache of input files, compared with downloading afresh
// (agent/internal/client/client.go). The web is a function of URL and time; the
// file system is the files of the temporary directory and of the cache directory.
module InputCache {
  import opened Options

  type Bytes = seq<int>

  datatype Path = InTemp(name: string) | InCache(name: string)

  type Files = map<Path, Bytes>

  // How a download begun at some time goes: the cache directory cannot be made, the request
  // fails or is refused, the file cannot be created, copying breaks off, or it succeeds.
  datatype Download = NoDirectory | Refused | NoFile | Broken | Served(bytes: Bytes)

  type Web = (string, int) -> Download

  // SHA-256 in hexadecimal, taken to be free of collisions.
  ghost predicate IsHash(hash: string -> string) {
    && (forall u :: |hash(u)| == 64)
    && (forall u, v :: hash(u) == hash(v) ==> u == v)
  }

  datatype Entry = Entry(path: Path, expiresAt: int)

  datatype Cache = Cache(entries: map<string, Entry>, files: Files, ttl: int)

  datatype Op = SetTtl(ttl: int) | Get(url: string, key: string, now: int) | Cleanup(got: Option<Path>)

  // The suffix from the last dot of the last path element.
  function Extension(path: string): (e: string)
    ensures '/' !in e && (e != "" ==> e[0] == '.')
  {
    if path == "" || path[|path| - 1] == '/' then ""
    else if path[|path| - 1] == '.' then "."
    else
      var e := Extension(path[..|path| - 1]);
      if e == "" then "" else e + [path[|path| - 1]]
  }

  lemma {:induction false} ExtensionExact(base: string, e: string)
    requires '.' !in e && '/' !in e
    ensures Extension(base + "." + e) == "." + e && Extension(base + "/" + e) == ""
  {
    var p, q := base + "." + e, base + "/" + e;
    if e != "" {
      var e' := e[..|e| - 1];
      assert p[..|p| - 1] == base + "." + e' && q[..|q| - 1] == base + "/" + e';
      assert e == e' + [e[|e| - 1]];
      ExtensionExact(base, e');
    }
  }

  function TempPath(key: string): Path {
    InTemp("job_forward_input" + Extension(key))
  }

  function CachePath(hash: string -> string, url: string, key: string): Path {
    InCache("input_" + hash(url) + Extension(key))
  }

  ghost predicate BelongsTo(hash: string -> string, path: Path, url: string) {
    exists k :: path == CachePath(hash, url, k)
  }

  // Files of different URLs never share a path, whatever their extensions.
  lemma PathsAreInjective(hash: string -> string, path: Path, u: string, v: string)
    requires IsHash(hash) && BelongsTo(hash, path, u) && BelongsTo(hash, path, v)
    ensures u == v
  {
    var k :| path == CachePath(hash, u, k);
    var l :| path == CachePath(hash, v, l);
    var a, b := "input_" + hash(u) + Extension(k), "input_" + hash(v) + Extension(l);
    assert a[6..70] == hash(u) && b[6..70] == hash(v);
  }

  // What the file system holds after a download to `path`.
  function Stored(files: Files, path: Path, d: Download): Files {
    match d
    case Served(bytes) => files[path := bytes]
    case Broken => files - {path}
    case _ => files
  }

  // A download without any cache.
  function Plain(web: Web, url: string, now: int): Option<Bytes> {
    if web(url, now).Served? then Some(web(url, now).bytes) else None
  }

  function Fresh(c: Cache, url: string, now: int): bool {
    c.ttl > 0 && url in c.entries && now < c.entries[url].expiresAt
  }

  function Evicted(c: Cache, url: string): Cache {
    if url in c.entries then c.(entries := c.entries - {url}, files := c.files - {c.entries[url].path}) else c
  }

  function Step(hash: string -> string, web: Web, c: Cache, op: Op): (Option<Path>, Cache) {
    match op
    case SetTtl(ttl) => (None, c.(ttl := ttl))
    case Cleanup(got) =>
      (None, if got.Some? && got.value.InTemp? then c.(files := c.files - {got.value}) else c)
    case Get(url, key, now) =>
      var d := web(url, now);
      if c.ttl <= 0 then
        (if d.Served? then Some(TempPath(key)) else None, c.(files := Stored(c.files, TempPath(key), d)))
      else if Fresh(c, url, now) then
        (Some(c.entries[url].path), c)
      else
        var path := CachePath(hash, url, key);
        var c' := Evicted(c, url).(files := Stored(Evicted(c, url).files, path, d));
        if d.Served? then (Some(path), c'.(entries := c'.entries[url := Entry(path, now + c.ttl)])) else (None, c')
  }

  // Every entry has a file of its own, and the cache directory holds nothing else.
  ghost predicate Tidy(hash: string -> string, c: Cache) {
    && (forall u | u in c.entries :: c.entries[u].path in c.files && BelongsTo(hash, c.entries[u].path, u))
    && (forall p | p in c.files && p.InCache? :: exists u :: u in c.entries && c.entries[u].path == p)
  }

  lemma OwnFiles(hash: string -> string, c: Cache, u: string, v: string)
    requires IsHash(hash) && Tidy(hash, c) && u in c.entries && v in c.entries && u != v
    ensures c.entries[u].path != c.entries[v].path
  {
    hide IsHash, BelongsTo;
    if c.entries[u].path == c.entries[v].path {
      PathsAreInjective(hash, c.entries[u].path, u, v);
    }
  }

  lemma EvictedTidy(hash: string -> string, c: Cache, url: string)
    requires IsHash(hash) && Tidy(hash, c)
    ensures var c' := Evicted(c, url);
      Tidy(hash, c') && url !in c'.entries && forall p | BelongsTo(hash, p, url) && p.InCache? :: p !in c'.files
  {
    hide IsHash, BelongsTo;
    var c' := Evicted(c, url);
    forall u | u in c'.entries ensures c'.entries[u].path in c'.files {
      if url in c.entries { OwnFiles(hash, c, u, url); }
    }
    forall p | p in c'.files && p.InCache?
      ensures !BelongsTo(hash, p, url) && exists u :: u in c'.entries && c'.entries[u].path == p
    {
      var u :| u in c.entries && c.entries[u].path == p;
      assert u in c'.entries;
      if BelongsTo(hash, p, url) { PathsAreInjective(hash, p, u, url); }
    }
  }

  lemma FilledTidy(hash: string -> string, c: Cache, url: string, path: Path, d: Download, expiresAt: int)
    requires Tidy(hash, c) && url !in c.entries && path !in c.files && path.InCache? && BelongsTo(hash, path, url)
    ensures var c' := c.(files := Stored(c.files, path, d));
      Tidy(hash, if d.Served? then c'.(entries := c.entries[url := Entry(path, expiresAt)]) else c')
  {
    hide BelongsTo;
    assert forall u | u in c.entries :: c.entries[u].path != path;
    if d.Served? {
      var entries, files := c.entries[url := Entry(path, expiresAt)], Stored(c.files, path, d);
      assert entries[url].path == path;
      forall p | p in files && p.InCache? ensures exists u :: u in entries && entries[u].path == p {
        if p != path {
          var u :| u in c.entries && c.entries[u].path == p;
          assert u in entries;
        }
      }
    }
  }

  lemma CacheUntouched(hash: string -> string, c: Cache, c': Cache)
    requires Tidy(hash, c) && c'.entries == c.entries
    requires forall p: Path | p.InCache? :: (p in c'.files <==> p in c.files)
    ensures Tidy(hash, c')
  {
    forall u | u in c.entries ensures c.entries[u].path.InCache? { InCacheDirectory(hash, c, u); }
  }

  lemma InCacheDirectory(hash: string -> string, c: Cache, url: string)
    requires Tidy(hash, c) && url in c.entries
    ensures c.entries[url].path.InCache?
  {
    assert BelongsTo(hash, c.entries[url].path, url);
  }

  lemma StepTidy(hash: string -> string, web: Web, c: Cache, op: Op)
    requires IsHash(hash) && Tidy(hash, c)
    ensures Tidy(hash, Step(hash, web, c, op).1)
  {
    hide IsHash, Tidy;
    if op.Get? && c.ttl > 0 && !Fresh(c, op.url, op.now) {
      RefreshTidy(hash, c, op.url, op.key, web(op.url, op.now), op.now + c.ttl);
    } else {
      CacheUntouched(hash, c, Step(hash, web, c, op).1);
    }
  }

  lemma RefreshTidy(hash: string -> string, c: Cache, url: string, key: string, d: Download, expiresAt: int)
    requires IsHash(hash) && Tidy(hash, c)
    ensures var path := CachePath(hash, url, key);
      var c' := Evicted(c, url).(files := Stored(Evicted(c, url).files, path, d));
      Tidy(hash, if d.Served? then c'.(entries := c'.entries[url := Entry(path, expiresAt)]) else c')
  {
    var path := CachePath(hash, url, key);
    assert BelongsTo(hash, path, url) && path.InCache?;
    EvictedTidy(hash, c, url);
    hide *;
    FilledTidy(hash, Evicted(c, url), url, path, d, expiresAt);
  }

  // ---- Runs.

  ghost predicate IsHistory(hash: string -> string, web: Web, states: seq<Cache>, ops: seq<Op>) {
    && IsHash(hash)
    && |states| == |ops| + 1
    && states[0].entries == map[] && (forall p | p in states[0].files :: p.InTemp?)
    && forall i | 0 <= i < |ops| :: states[i + 1] == Step(hash, web, states[i], ops[i]).1
  }

  // Operation i was a download of url, and brought these bytes.
  predicate Brought(web: Web, op: Op, url: string, bytes: Bytes) {
    op.Get? && op.url == url && web(url, op.now) == Served(bytes)
  }

  // The file of every entry holds what its URL served in a download of the run, and the
  // entry expires when the TTL in force at that download has passed.
  ghost predicate Sourced(web: Web, states: seq<Cache>, ops: seq<Op>, k: nat, url: string)
    requires |states| == |ops| + 1 && k < |states| && url in states[k].entries
  {
    var e := states[k].entries[url];
    e.path in states[k].files
    && exists i | 0 <= i < k ::
         && Brought(web, ops[i], url, states[k].files[e.path])
         && states[i].ttl > 0 && e.expiresAt == ops[i].now + states[i].ttl
  }

  lemma {:induction false} RunsStayTidy(hash: string -> string, web: Web, states: seq<Cache>, ops: seq<Op>, k: nat)
    requires IsHistory(hash, web, states, ops) && k < |states|
    ensures Tidy(hash, states[k])
  {
    if k > 0 {
      RunsStayTidy(hash, web, states, ops, k - 1);
      StepTidy(hash, web, states[k - 1], ops[k - 1]);
    }
  }

  // A download for the cache touches no other URL's entry or file.
  lemma RefreshSource(hash: string -> string, c: Cache, url: string, other: string, key: string, d: Download)
    requires IsHash(hash) && Tidy(hash, c) && other in c.entries && other != url
    ensures other in Evicted(c, url).entries
    ensures var p := c.entries[other].path;
      var files := Stored(Evicted(c, url).files, CachePath(hash, url, key), d);
      p in files && files[p] == c.files[p]
  {
    hide IsHash, CachePath, Tidy, Extension;
    OtherPath(hash, c, url, other, key);
    if url in c.entries { OwnFiles(hash, c, other, url); }
  }

  lemma OtherPath(hash: string -> string, c: Cache, url: string, other: string, key: string)
    requires IsHash(hash) && Tidy(hash, c) && other in c.entries && other != url
    ensures c.entries[other].path in c.files && c.entries[other].path != CachePath(hash, url, key)
  {
    var path, p := CachePath(hash, url, key), c.entries[other].path;
    assert BelongsTo(hash, path, url);
    assert BelongsTo(hash, p, other) && p in c.files;
    hide IsHash, BelongsTo, CachePath, Tidy;
    if p == path { PathsAreInjective(hash, path, url, other); }
  }

  // A step leaves the entry and the file of a URL alone, or has just downloaded them.
  lemma StepSource(hash: string -> string, web: Web, c: Cache, op: Op, url: string)
    requires IsHash(hash) && Tidy(hash, c)
    requires url in Step(hash, web, c, op).1.entries
    ensures var c' := Step(hash, web, c, op).1;
      var e := c'.entries[url];
      e.path in c'.files
      && ((Brought(web, op, url, c'.files[e.path]) && c.ttl > 0 && e.expiresAt == op.now + c.ttl)
          || (url in c.entries && c.entries[url] == e && e.path in c.files && c.files[e.path] == c'.files[e.path]))
  {
    hide IsHash, CachePath;
    if op.Get? && c.ttl > 0 && !Fresh(c, op.url, op.now) && url != op.url {
      RefreshSource(hash, c, op.url, url, op.key, web(op.url, op.now));
    } else if url in c.entries {
      InCacheDirectory(hash, c, url);
    }
  }

  lemma {:induction false} RunsStaySourced(hash: string -> string, web: Web, states: seq<Cache>, ops: seq<Op>,
      k: nat, url: string)
    requires IsHistory(hash, web, states, ops) && k < |states| && url in states[k].entries
    ensures Sourced(web, states, ops, k, url)
  {
    RunsStayTidy(hash, web, states, ops, k - 1);
    StepSource(hash, web, states[k - 1], ops[k - 1], url);
    if url in states[k - 1].entries {
      RunsStaySourced(hash, web, states, ops, k - 1, url);
    }
  }

  // A hit or a fresh file: every successful call hands out the bytes that its URL served
  // in this very call, or in an earlier one less than that call's TTL ago.
  lemma CacheAgrees(hash: string -> string, web: Web, states: seq<Cache>, ops: seq<Op>, j: nat)
    requires IsHistory(hash, web, states, ops) && j < |ops| && ops[j].Get?
    requires Step(hash, web, states[j], ops[j]).0.Some?
    ensures var path := Step(hash, web, states[j], ops[j]).0.value;
      path in states[j + 1].files
      && exists i | 0 <= i <= j ::
           Brought(web, ops[i], ops[j].url, states[j + 1].files[path])
           && (i == j || (states[i].ttl > 0 && ops[j].now < ops[i].now + states[i].ttl))
  {
    var url := ops[j].url;
    if Fresh(states[j], url, ops[j].now) {
      RunsStaySourced(hash, web, states, ops, j, url);
      var path := states[j].entries[url].path;
      var i :| 0 <= i < j && Brought(web, ops[i], url, states[j].files[path])
        && states[i].ttl > 0 && states[j].entries[url].expiresAt == ops[i].now + states[i].ttl;
    } else {
      assert Brought(web, ops[j], url, web(url, ops[j].now).bytes);
    }
  }

  // As long as a URL serves the same thing, calling the cache and downloading are the same.
  lemma StableContentAgrees(hash: string -> string, web: Web, states: seq<Cache>, ops: seq<Op>, j: nat)
    requires IsHistory(hash, web, states, ops) && j < |ops| && ops[j].Get?
    requires forall i | 0 <= i < j && ops[i].Get? && ops[i].url == ops[j].url ::
      web(ops[i].url, ops[i].now) == web(ops[j].url, ops[j].now)
    ensures var got := Step(hash, web, states[j], ops[j]).0;
      match Plain(web, ops[j].url, ops[j].now)
      case None => got == None
      case Some(bytes) => got.Some? && got.value in states[j + 1].files && states[j + 1].files[got.value] == bytes
  {
    if Step(hash, web, states[j], ops[j]).0.Some? {
      CacheAgrees(hash, web, states, ops, j);
    }
  }

  // The cache directory is exactly the files of the entries, one each.
  lemma DirectoryIsEntries(hash: string -> string, web: Web, states: seq<Cache>, ops: seq<Op>, k: nat)
    requires IsHistory(hash, web, states, ops) && k < |states|
    ensures var c := states[k];
      && (set p | p in c.files && p.InCache?) == (set u | u in c.entries :: c.entries[u].path)
      && forall u, v | u in c.entries && v in c.entries && u != v :: c.entries[u].path != c.entries[v].path
  {
    var c := states[k];
    RunsStayTidy(hash, web, states, ops, k);
    forall u, v | u in c.entries && v in c.entries && u != v ensures c.entries[u].path != c.entries[v].path {
      OwnFiles(hash, c, u, v);
    }
  }

  // Call number i downloaded the URL for the cache, the entry it replaced having expired, and
  // every call for it since, up to number k, came before the TTL of call i had passed.
  ghost predicate InForce(web: Web, states: seq<Cache>, ops: seq<Op>, i: nat, k: nat, url: string)
    requires |states| == |ops| + 1 && i < k < |states|
  {
    && ops[i].Get? && ops[i].url == url && web(url, ops[i].now).Served? && states[i].ttl > 0
    && (url in states[i].entries ==> states[i].entries[url].expiresAt <= ops[i].now)
    && forall n | i < n < k && ops[n].Get? && ops[n].url == url && states[n].ttl > 0 ::
         ops[n].now < ops[i].now + states[i].ttl
  }

  lemma {:induction false} ForceIsEntry(hash: string -> string, web: Web, states: seq<Cache>, ops: seq<Op>, i: nat,
      k: nat, url: string)
    requires IsHistory(hash, web, states, ops) && i < k < |states| && InForce(web, states, ops, i, k, url)
    ensures url in states[k].entries
    ensures states[k].entries[url] == Entry(CachePath(hash, url, ops[i].key), ops[i].now + states[i].ttl)
  {
    hide IsHash, CachePath;
    if k > i + 1 { ForceIsEntry(hash, web, states, ops, i, k - 1, url); }
  }

  lemma {:induction false} EntryIsForce(hash: string -> string, web: Web, states: seq<Cache>, ops: seq<Op>,
      k: nat, url: string) returns (i: nat)
    requires IsHistory(hash, web, states, ops) && k < |states| && url in states[k].entries
    ensures i < k && InForce(web, states, ops, i, k, url)
  {
    hide IsHash, CachePath;
    var c, op := states[k - 1], ops[k - 1];
    if op.Get? && op.url == url && c.ttl > 0 && !Fresh(c, url, op.now) {
      i := k - 1;
    } else {
      i := EntryIsForce(hash, web, states, ops, k - 1, url);
      ForceIsEntry(hash, web, states, ops, i, k - 1, url);
    }
  }

  const REFUSING: Web := (url: string, now: int) => Refused

  // With caching on, a call is answered from the cache, whatever the web would say, exactly if
  // an earlier download is still in force: then the file of that download is handed out and
  // nothing changes. Otherwise the URL is downloaded, and the call succeeds exactly if it is
  // served.
  lemma HitsExactly(hash: string -> string, web: Web, states: seq<Cache>, ops: seq<Op>, j: nat)
    requires IsHistory(hash, web, states, ops) && j < |ops| && ops[j].Get? && states[j].ttl > 0
    ensures var url, now := ops[j].url, ops[j].now;
      forall i | 0 <= i < j && InForce(web, states, ops, i, j, url) && now < ops[i].now + states[i].ttl ::
        forall other: Web ::
          Step(hash, other, states[j], ops[j])
          == (Some(InCache("input_" + hash(url) + Extension(ops[i].key))), states[j])
    ensures var url, now := ops[j].url, ops[j].now;
      (forall i | 0 <= i < j && InForce(web, states, ops, i, j, url) :: now >= ops[i].now + states[i].ttl) ==>
        && (Step(hash, web, states[j], ops[j]).0.Some? <==> web(url, now).Served?)
        && Step(hash, REFUSING, states[j], ops[j]).0.None?
  {
    hide IsHash;
    var url, now := ops[j].url, ops[j].now;
    forall i | 0 <= i < j && InForce(web, states, ops, i, j, url) && now < ops[i].now + states[i].ttl
      ensures url in states[j].entries && now < states[j].entries[url].expiresAt
      ensures states[j].entries[url].path == CachePath(hash, url, ops[i].key)
    {
      ForceIsEntry(hash, web, states, ops, i, j, url);
    }
    if url in states[j].entries {
      var i := EntryIsForce(hash, web, states, ops, j, url);
      ForceIsEntry(hash, web, states, ops, i, j, url);
    }
  }

  // With caching off, a call and the cleanup it asks for leave no trace.
  lemma UncachedLeavesNothing(hash: string -> string, web: Web, c: Cache, url: string, key: string, now: int)
    requires c.ttl <= 0 && TempPath(key) !in c.files
    ensures var (got, c') := Step(hash, web, c, Get(url, key, now));
      Step(hash, web, c', Cleanup(got)).1 == c
  {
    var (got, c') := Step(hash, web, c, Get(url, key, now));
    var after := Step(hash, web, c', Cleanup(got)).1;
    assert after.files == c.files;
  }

  // ---- The client's methods.

  class FileCache {
    const hash: string -> string
    const web: Web
    var inputCache: map<string, Entry>
    var inputCacheTtl: int
    var files: Files

    ghost function View(): Cache
      reads this
    {
      Cache(inputCache, files, inputCacheTtl)
    }

    // Ten minutes, in milliseconds.
    constructor (hash: string -> string, web: Web, files: Files)
      ensures this.hash == hash && this.web == web && View() == Cache(map[], files, 600_000)
    {
      this.hash, this.web, this.files := hash, web, files;
      inputCache, inputCacheTtl := map[], 600_000;
    }

    method SetInputCacheTTL(ttl: int)
      modifies this
      ensures View() == Step(hash, web, old(View()), SetTtl(ttl)).1
      ensures inputCacheTtl == ttl && inputCache == old(inputCache) && files == old(files)
    {
      inputCacheTtl := ttl;
    }

    // The response is written to a file at `path`; a file half written is removed.
    method Download(url: string, path: Path, now: int) returns (ok: bool)
      modifies this`files
      ensures ok <==> web(url, now).Served?
      ensures files == Stored(old(files), path, web(url, now))
    {
      var d := web(url, now);
      if d.NoDirectory? || d.Refused? || d.NoFile? { return false; }
      files := files[path := []];
      if d.Broken? {
        files := files - {path};
        return false;
      }
      files := files[path := d.bytes];
      return true;
    }

    method GetCachedInputFile(url: string, key: string, now: int) returns (got: Option<Path>)
      modifies this
      ensures (got, View()) == Step(hash, web, old(View()), Get(url, key, now))
      ensures inputCacheTtl > 0 && url in old(inputCache) && now < old(inputCache)[url].expiresAt ==>
                got == Some(old(inputCache)[url].path) && View() == old(View())
      ensures inputCacheTtl <= 0 || url !in old(inputCache) || now >= old(inputCache)[url].expiresAt ==>
                (got.Some? <==> web(url, now).Served?)
    {
      var ttl := inputCacheTtl;
      if ttl <= 0 {
        var stored := Download(url, TempPath(key), now);
        return if stored then Some(TempPath(key)) else None;
      }
      if url in inputCache {
        var entry := inputCache[url];
        if now < entry.expiresAt { return Some(entry.path); }
        inputCache := inputCache - {url};
        files := files - {entry.path};
      }
      var path := CachePath(hash, url, key);
      var stored := Download(url, path, now);
      if !stored { return None; }
      inputCache := inputCache[url := Entry(path, now + ttl)];
      return Some(path);
    }

    // The cleanup handed out with a file removes it only if it is temporary.
    method CleanUp(got: Option<Path>)
      modifies this`files
      ensures View() == Step(hash, web, old(View()), Cleanup(got)).1
    {
      if got.Some? && got.value.InTemp? { files := files - {got.value}; }
    }
  }
}
