/** The collector as the program runs it, updating its lists in place (buildClaudeContext in src/coding/claude-context.ts). */
module ContextWalk {
  import opened Common
  import opened JsonScan
  import opened TextMeasures
  import opened ContextPaths
  import opened ContextCollector
  import opened ContextSearch
  import opened Utf8

  /** The rules allow the paths the walk starts from, and the bridge is short. */
  ghost predicate AreUsable(r: Rules) {
    r.allowed(r.root) && r.allowed(r.nested) && r.allowed(r.agents) && r.bytes(r.bridge) <= 11 &&
    r.root != r.nested && r.root != r.agents
  }

  /** Every file is the bridge, in front, or what a read of its path gave. */
  ghost predicate IsGenuine(w: Workspace, r: Rules, files: seq<File>) {
    forall i :: 0 <= i < |files| ==> IsRead(w, r, files[i]) || (i == 0 && files[i] == File(r.root, r.bridge))
  }

  ghost predicate IsRead(w: Workspace, r: Rules, file: File) {
    exists t :: IsReadAt(w, r, file, t)
  }

  /** One read of the path gave these contents, encoded within the limit. */
  ghost predicate IsReadAt(w: Workspace, r: Rules, file: File, t: nat) {
    var reading := w.read(t, file.path);
    reading.Opened? && |reading.bytes| <= MAX_FILE_BYTES && r.decode(reading.bytes) == Some(file.content)
  }

  /** All that is collected, waiting and seen. */
  datatype Store = Store(files: seq<File>, totalBytes: nat, queue: seq<Entry>, head: nat, seen: set<Path>)

  /** File i is allowed, seen, small, genuine, and has a path of its own. */
  ghost predicate IsKept(w: Workspace, r: Rules, files: seq<File>, seen: set<Path>, i: nat)
    requires i < |files|
  {
    files[i].path in seen && r.allowed(files[i].path) && r.bytes(files[i].content) <= MAX_FILE_BYTES &&
    (IsRead(w, r, files[i]) || (i == 0 && files[i] == File(r.root, r.bridge))) &&
    forall j :: 0 <= j < i ==> files[j].path != files[i].path
  }

  ghost predicate FilesKept(w: Workspace, r: Rules, files: seq<File>, seen: set<Path>, n: nat)
    requires n <= |files|
  {
    n == 0 || (FilesKept(w, r, files, seen, n - 1) && IsKept(w, r, files, seen, n - 1))
  }

  /** The path is neither collected nor waiting from `head` on. */
  ghost predicate IsNew(path: Path, files: seq<File>, queue: seq<Entry>, head: nat) {
    (forall i :: 0 <= i < |files| ==> files[i].path != path) &&
    (forall k :: head <= k < |queue| ==> queue[k].path != path)
  }

  /** What waits from `head` on is allowed, seen, and new. */
  ghost predicate QueueTidy(r: Rules, files: seq<File>, queue: seq<Entry>, head: nat, seen: set<Path>)
    decreases |queue| - head
  {
    head >= |queue| ||
    (r.allowed(queue[head].path) && queue[head].path in seen && IsNew(queue[head].path, files, queue, head + 1) &&
     QueueTidy(r, files, queue, head + 1, seen))
  }

  /** What is collected is counted right and within the limits; what waits is tidy. */
  ghost predicate IsStored(w: Workspace, r: Rules, s: Store) {
    |s.files| <= MAX_FILES && s.totalBytes == BytesOf(r, s.files, |s.files|) && s.totalBytes <= MAX_TOTAL_BYTES &&
    FilesKept(w, r, s.files, s.seen, |s.files|) && s.head <= |s.queue| && QueueTidy(r, s.files, s.queue, s.head, s.seen)
  }

  /** The path may be loaded: allowed, seen, and neither collected nor waiting. */
  ghost predicate MayLoad(r: Rules, s: Store, path: Path) {
    r.allowed(path) && path in s.seen && IsNew(path, s.files, s.queue, s.head)
  }

  lemma {:induction false} StillKept(w: Workspace, r: Rules, files: seq<File>, files': seq<File>, seen: set<Path>,
                                     seen': set<Path>, n: nat)
    requires n <= |files| && FilesKept(w, r, files, seen, n) && files <= files' && seen <= seen'
    ensures FilesKept(w, r, files', seen', n)
    decreases n
  {
    if n > 0 {
      StillKept(w, r, files, files', seen, seen', n - 1);
    }
  }

  /** A file collected, or a path seen, leaves the queue tidy. */
  lemma {:induction false} StillTidy(r: Rules, files: seq<File>, more: seq<File>, queue: seq<Entry>, head: nat,
                                     seen: set<Path>, seen': set<Path>)
    requires QueueTidy(r, files, queue, head, seen) && seen <= seen'
    requires forall i, k :: 0 <= i < |more| && head <= k < |queue| ==> more[i].path != queue[k].path
    ensures QueueTidy(r, files + more, queue, head, seen')
    decreases |queue| - head
  {
    if head < |queue| {
      StillTidy(r, files, more, queue, head + 1, seen, seen');
    }
  }

  lemma {:induction false} TidyWithEntry(r: Rules, files: seq<File>, queue: seq<Entry>, head: nat, seen: set<Path>,
                                         entry: Entry)
    requires QueueTidy(r, files, queue, head, seen) && head <= |queue|
    requires r.allowed(entry.path) && entry.path in seen && IsNew(entry.path, files, queue, head)
    ensures QueueTidy(r, files, queue + [entry], head, seen)
    decreases |queue| - head
  {
    if head < |queue| {
      TidyWithEntry(r, files, queue, head + 1, seen, entry);
    } else {
      assert QueueTidy(r, files, queue + [entry], head + 1, seen);
    }
  }

  /** A file read from such a path. */
  lemma {:induction false} StoredWithFile(w: Workspace, r: Rules, s: Store, file: File)
    requires IsStored(w, r, s) && IsRead(w, r, file) && MayLoad(r, s, file.path)
    requires |s.files| < MAX_FILES && r.bytes(file.content) <= MAX_FILE_BYTES
    requires s.totalBytes + r.bytes(file.content) <= MAX_TOTAL_BYTES
    ensures IsStored(w, r, s.(files := s.files + [file], totalBytes := s.totalBytes + r.bytes(file.content)))
  {
    BytesOfEarlier(r, s.files, file, |s.files|);
    StillKept(w, r, s.files, s.files + [file], s.seen, s.seen, |s.files|);
    assert IsKept(w, r, s.files + [file], s.seen, |s.files|);
    StillTidy(r, s.files, [file], s.queue, s.head, s.seen, s.seen);
  }

  /** The bridge in front of the AGENTS.md that was collected alone. */
  lemma {:induction false} StoredWithBridge(w: Workspace, r: Rules, s: Store, agents: File)
    requires IsStored(w, r, s) && s.files == [agents] && agents.path == r.agents && s.queue == [] && s.head == 0
    requires AreUsable(r) && r.root in s.seen
    ensures IsStored(w, r, s.(files := [File(r.root, r.bridge), agents], totalBytes := s.totalBytes + r.bytes(r.bridge)))
  {
    var bridge := File(r.root, r.bridge);
    var files := [bridge, agents];
    assert FilesKept(w, r, s.files, s.seen, 1) && IsKept(w, r, s.files, s.seen, 0) && s.files[0] == agents;
    assert BytesOf(r, s.files, 1) == BytesOf(r, s.files, 0) + r.bytes(agents.content);
    assert BytesOf(r, files, 1) == BytesOf(r, files, 0) + r.bytes(bridge.content);
    assert BytesOf(r, files, 2) == BytesOf(r, files, 1) + r.bytes(agents.content);
    assert FilesKept(w, r, files, s.seen, 0) && IsKept(w, r, files, s.seen, 0);
    assert FilesKept(w, r, files, s.seen, 1) && IsKept(w, r, files, s.seen, 1);
  }

  /** The head of the queue leaves it: it is collected nowhere, and waits no more. */
  lemma {:induction false} StoredWithoutHead(w: Workspace, r: Rules, s: Store)
    requires IsStored(w, r, s) && s.head < |s.queue|
    ensures IsStored(w, r, s.(head := s.head + 1)) && MayLoad(r, s.(head := s.head + 1), s.queue[s.head].path)
  {
  }

  /** A path seen for the first time. */
  lemma {:induction false} StoredWithSeen(w: Workspace, r: Rules, s: Store, path: Path)
    requires IsStored(w, r, s) && path !in s.seen
    ensures IsStored(w, r, s.(seen := s.seen + {path}))
    ensures r.allowed(path) ==> MayLoad(r, s.(seen := s.seen + {path}), path)
  {
    StillKept(w, r, s.files, s.files, s.seen, s.seen + {path}, |s.files|);
    StillTidy(r, s.files, [], s.queue, s.head, s.seen, s.seen + {path});
    assert s.files + [] == s.files;
    UnseenIsNew(w, r, s, path);
  }

  lemma {:induction false} UnseenIsNew(w: Workspace, r: Rules, s: Store, path: Path)
    requires IsStored(w, r, s) && path !in s.seen
    ensures IsNew(path, s.files, s.queue, s.head)
  {
    forall i | 0 <= i < |s.files| ensures s.files[i].path != path {
      KeptAt(w, r, s.files, s.seen, |s.files|, i);
    }
    forall k | s.head <= k < |s.queue| ensures s.queue[k].path != path {
      TidyAt(r, s.files, s.queue, s.head, s.seen, k);
    }
  }

  lemma {:induction false} KeptAt(w: Workspace, r: Rules, files: seq<File>, seen: set<Path>, n: nat, i: nat)
    requires i < n <= |files| && FilesKept(w, r, files, seen, n)
    ensures IsKept(w, r, files, seen, i)
    decreases n
  {
    if i < n - 1 {
      KeptAt(w, r, files, seen, n - 1, i);
    }
  }

  lemma {:induction false} TidyAt(r: Rules, files: seq<File>, queue: seq<Entry>, head: nat, seen: set<Path>, k: nat)
    requires head <= k < |queue| && QueueTidy(r, files, queue, head, seen)
    ensures queue[k].path in seen
    decreases k - head
  {
    if head < k {
      TidyAt(r, files, queue, head + 1, seen, k);
    }
  }

  lemma {:induction false} StoredWithEntry(w: Workspace, r: Rules, s: Store, entry: Entry)
    requires IsStored(w, r, s) && MayLoad(r, s, entry.path)
    ensures IsStored(w, r, s.(queue := s.queue + [entry]))
  {
    TidyWithEntry(r, s.files, s.queue, s.head, s.seen, entry);
  }

  /** The collection starts with the two roots waiting. */
  lemma {:induction false} StoredAtStart(w: Workspace, r: Rules)
    requires AreUsable(r)
    ensures IsStored(w, r, Store([], 0, [Entry(r.root, 0), Entry(r.nested, 0)], 0, {r.root} + {r.nested}))
  {
    var queue, seen := [Entry(r.root, 0), Entry(r.nested, 0)], {r.root} + {r.nested};
    assert QueueTidy(r, [], queue, 2, seen) && IsNew(r.nested, [], queue, 2);
    assert QueueTidy(r, [], queue, 1, seen) && IsNew(r.root, [], queue, 1);
  }

  /** Or with AGENTS.md alone, when it stands in for them. */
  lemma {:induction false} StoredFromAgents(w: Workspace, r: Rules, seen: set<Path>)
    requires AreUsable(r)
    ensures IsStored(w, r, Store([], 0, [], 0, seen + {r.agents}))
    ensures MayLoad(r, Store([], 0, [], 0, seen + {r.agents}), r.agents)
  {
  }

  /** What is stored meets the worker's schema, and is genuine. */
  lemma {:induction false} StoredMeetsSchema(w: Workspace, r: Rules, s: Store)
    requires IsStored(w, r, s)
    ensures MeetsSchema(r, s.files) && IsGenuine(w, r, s.files) && s.totalBytes == BytesOf(r, s.files, |s.files|)
  {
    var files := s.files;
    forall i | 0 <= i < |files|
      ensures r.bytes(files[i].content) <= MAX_FILE_BYTES && r.allowed(files[i].path)
      ensures IsRead(w, r, files[i]) || (i == 0 && files[i] == File(r.root, r.bridge))
    {
      KeptAt(w, r, files, s.seen, |files|, i);
    }
    forall i, j | 0 <= i < j < |files| ensures files[i].path != files[j].path {
      KeptAt(w, r, files, s.seen, |files|, j);
    }
  }

  /** The graph has every import, the roots, and the bridge's import. */
  ghost predicate Covers(w: Workspace, r: Rules, g: Graph) {
    (forall file, path {:trigger Imports(w, r, file, path)} :: Imports(w, r, file, path) ==> g.step(file, path)) &&
    g.start(r.root) && g.start(r.nested) && g.step(File(r.root, r.bridge), r.agents)
  }

  /** The first n files collected were reached in as many imports as their depths say, none less deep than the one before. */
  ghost predicate FilesWithin(g: Graph, files: seq<File>, depths: seq<nat>, n: nat)
    requires n <= |files| && n <= |depths|
  {
    n == 0 ||
    (FilesWithin(g, files, depths, n - 1) && depths[n - 1] <= MAX_IMPORT_DEPTH &&
     IsReached(g, files, files[n - 1].path, depths[n - 1]) && (n > 1 ==> depths[n - 2] <= depths[n - 1]))
  }

  /**
   * All that waits from `head` on was reached, in as many imports as its depth
   * says: at least `low`, at most `high`, and none less than the one before.
   */
  ghost predicate QueueWithin(g: Graph, files: seq<File>, queue: seq<Entry>, head: nat, low: nat, high: nat)
    decreases |queue| - head
  {
    head >= |queue| ||
    (low <= queue[head].depth <= high && queue[head].depth <= MAX_IMPORT_DEPTH &&
     IsReached(g, files, queue[head].path, queue[head].depth) &&
     QueueWithin(g, files, queue, head + 1, queue[head].depth, high))
  }

  /** How far a walk through the graph is: what it collected, at which depths, what waits, and the level it is at. */
  datatype Trail = Trail(g: Graph, files: seq<File>, depths: seq<nat>, queue: seq<Entry>, head: nat, level: nat)

  /** Breadth first: the files collected lie at most `level` deep, and what waits at that level or the next. */
  ghost predicate IsLayered(t: Trail) {
    |t.depths| == |t.files| && FilesWithin(t.g, t.files, t.depths, |t.files|) && t.level <= MAX_IMPORT_DEPTH &&
    (t.depths != [] ==> t.depths[|t.depths| - 1] <= t.level) &&
    QueueWithin(t.g, t.files, t.queue, t.head, t.level, t.level + 1)
  }

  type Layers = t: Trail | IsLayered(t) ghost witness Trail(Graph(p => false, (f, p) => false), [], [], [], 0, 0)

  lemma {:induction false} FilesStillWithin(g: Graph, files: seq<File>, depths: seq<nat>, file: File, d: nat, n: nat)
    requires n <= |files| && n <= |depths| && FilesWithin(g, files, depths, n)
    ensures FilesWithin(g, files + [file], depths + [d], n)
    decreases n
  {
    if n > 0 {
      FilesStillWithin(g, files, depths, file, d, n - 1);
      StillReached(g, files, file, files[n - 1].path, depths[n - 1]);
    }
  }

  lemma {:induction false} QueueStillWithin(g: Graph, files: seq<File>, file: File, queue: seq<Entry>, head: nat, low: nat,
                                            high: nat)
    requires QueueWithin(g, files, queue, head, low, high)
    ensures QueueWithin(g, files + [file], queue, head, low, high)
    decreases |queue| - head
  {
    if head < |queue| {
      StillReached(g, files, file, queue[head].path, queue[head].depth);
      QueueStillWithin(g, files, file, queue, head + 1, queue[head].depth, high);
    }
  }

  lemma {:induction false} QueueWidens(g: Graph, files: seq<File>, queue: seq<Entry>, head: nat, low: nat, high: nat,
                                       high': nat)
    requires QueueWithin(g, files, queue, head, low, high) && high <= high'
    ensures QueueWithin(g, files, queue, head, low, high')
    decreases |queue| - head
  {
    if head < |queue| {
      QueueWidens(g, files, queue, head + 1, queue[head].depth, high, high');
    }
  }

  /** The head of the queue leaves it: its depth is the level now. */
  lemma {:induction false} LayeredWithoutHead(t: Layers) returns (t': Layers)
    requires t.head < |t.queue|
    ensures t' == t.(head := t.head + 1, level := t.queue[t.head].depth)
    ensures IsReached(t.g, t.files, t.queue[t.head].path, t'.level)
  {
    QueueWidens(t.g, t.files, t.queue, t.head + 1, t.queue[t.head].depth, t.level + 1, t.queue[t.head].depth + 1);
    t' := t.(head := t.head + 1, level := t.queue[t.head].depth);
  }

  /** One file more, reached at this level. */
  lemma {:induction false} LayeredWithFile(t: Layers, file: File) returns (t': Layers)
    requires IsReached(t.g, t.files, file.path, t.level)
    ensures t' == t.(files := t.files + [file], depths := t.depths + [t.level])
    ensures IsReached(t.g, t'.files, file.path, t.level)
  {
    FilesStillWithin(t.g, t.files, t.depths, file, t.level, |t.files|);
    QueueStillWithin(t.g, t.files, file, t.queue, t.head, t.level, t.level + 1);
    StillReached(t.g, t.files, file, file.path, t.level);
    t' := t.(files := t.files + [file], depths := t.depths + [t.level]);
  }

  lemma {:induction false} QueueWithEntry(g: Graph, files: seq<File>, queue: seq<Entry>, head: nat, low: nat, entry: Entry)
    requires head <= |queue| && QueueWithin(g, files, queue, head, low, entry.depth) && low <= entry.depth
    requires entry.depth <= MAX_IMPORT_DEPTH && IsReached(g, files, entry.path, entry.depth)
    ensures QueueWithin(g, files, queue + [entry], head, low, entry.depth)
    decreases |queue| - head
  {
    if head < |queue| {
      QueueWithEntry(g, files, queue, head + 1, queue[head].depth, entry);
    }
  }

  /** Imports of the file collected last, which lies at this level, may wait at the next. */
  ghost predicate CanWait(w: Workspace, r: Rules, g: Graph, files: seq<File>, level: nat) {
    Covers(w, r, g) && files != [] && level < MAX_IMPORT_DEPTH && IsReached(g, files, files[|files| - 1].path, level)
  }

  /** An import of the last file collected, waiting one level further. */
  lemma {:induction false} ImportWaits(w: Workspace, r: Rules, t: Layers, k: nat, path: Path) returns (t': Layers)
    requires CanWait(w, r, t.g, t.files, t.level) && IsImport(w, r, t.files[|t.files| - 1], k, path) && t.head <= |t.queue|
    ensures t' == t.(queue := t.queue + [Entry(path, t.level + 1)])
  {
    var file := t.files[|t.files| - 1];
    assert Imports(w, r, file, path);
    assert LeadsTo(t.g, t.files, file, path, t.level + 1);
    QueueWithEntry(t.g, t.files, t.queue, t.head, t.level, Entry(path, t.level + 1));
    t' := t.(queue := t.queue + [Entry(path, t.level + 1)]);
  }

  /** The bridge, and the AGENTS.md that it imports. */
  lemma {:induction false} BridgeLayered(w: Workspace, r: Rules, g: Graph, files: seq<File>) returns (t: Layers)
    requires Covers(w, r, g) && |files| == 2 && files[0] == File(r.root, r.bridge) && files[1].path == r.agents
    ensures t == Trail(g, files, [0, 1], [], 0, 1) && CanWait(w, r, g, files, 1)
  {
    var depths: seq<nat> := [0, 1];
    assert IsReached(g, files, r.root, 0) && LeadsTo(g, files, files[0], r.agents, 1);
    assert IsReached(g, files, r.agents, 1);
    assert FilesWithin(g, files, depths, 0) && FilesWithin(g, files, depths, 1) && FilesWithin(g, files, depths, 2);
    t := Trail(g, files, [0, 1], [], 0, 1);
  }

  /** Nothing collected yet: only the roots wait, or nothing. */
  lemma {:induction false} StartLayered(w: Workspace, r: Rules, g: Graph, queue: seq<Entry>) returns (t: Layers)
    requires Covers(w, r, g)
    requires queue == [] || queue == [Entry(r.root, 0), Entry(r.nested, 0)]
    ensures t == Trail(g, [], [], queue, 0, 0)
  {
    if queue != [] {
      assert QueueWithin(g, [], queue, 2, 0, 1);
      assert QueueWithin(g, [], queue, 1, 0, 1);
    }
    t := Trail(g, [], [], queue, 0, 0);
  }

  /** What a load gives, unless a limit is passed: the content of a readable file. */
  ghost predicate IsWhatIsRead(w: Workspace, r: Rules, path: Path, content: Option<Text>) {
    match content
    case None => !IsReadable(w, r, path)
    case Some(text) => IsReadableAs(w, r, path, text)
  }

  // ---- the limits ---------------------------------------------------------

  /** Something of this size was found at the path, or read from it. */
  ghost predicate HasSize(w: Workspace, r: Rules, path: Path, size: nat) {
    (exists t :: w.inspect(t, path) == Regular(size)) ||
    (exists t, content :: IsReadAt(w, r, File(path, content), t) && r.bytes(content) == size)
  }

  /** There are as many files as allowed, or one was found that would take them over the total. */
  ghost predicate PassesLimit(w: Workspace, r: Rules, count: nat, totalBytes: nat) {
    count >= 200 || exists path, size :: HasSize(w, r, path, size) && totalBytes + size > 262144
  }

  ghost predicate LimitsRecorded(skipped: seq<Skip>, limited: bool) {
    limited || forall i :: 0 <= i < |skipped| ==> skipped[i].reason != Limit
  }

  /** The limit counts as reached, and is given as a reason, only where one is passed. */
  ghost predicate IsFair(w: Workspace, r: Rules, count: nat, totalBytes: nat, limited: bool, skipped: seq<Skip>) {
    (limited ==> PassesLimit(w, r, count, totalBytes)) && LimitsRecorded(skipped, limited) &&
    |skipped| <= MAX_RECORDED_SKIPS
  }

  class Collector {
    const w: Workspace
    const r: Rules
    ghost const g: Graph
    var files: seq<File>
    var skipped: seq<Skip>
    var seen: set<Path>
    var queue: seq<Entry>
    var head: nat
    var totalBytes: nat
    var limitReached: bool
    var overflow: nat
    var looks: nat
    ghost var trail: Layers
    ghost var search: Searched

    constructor (w: Workspace, r: Rules, ghost g: Graph)
      ensures this.w == w && this.r == r && this.g == g && files == [] && skipped == [] && seen == {} && queue == [] && head == 0
      ensures totalBytes == 0 && !limitReached && Valid()
    {
      this.w, this.r, this.g := w, r, g;
      files, skipped, seen, queue, head, totalBytes := [], [], {}, [], 0, 0;
      limitReached, overflow, looks := false, 0, 0;
    }

    ghost function Held(): Store
      reads `files, `totalBytes, `queue, `head, `seen
    {
      Store(files, totalBytes, queue, head, seen)
    }

    ghost predicate Valid()
      reads `files, `totalBytes, `queue, `head, `seen, `skipped, `limitReached
    {
      IsStored(w, r, Held()) && IsFair(w, r, |files|, totalBytes, limitReached, skipped)
    }

    /** The trail and the search are where the walk is. */
    ghost predicate OnTrail()
      reads `files, `queue, `head, `trail, `search, `seen, `limitReached
    {
      trail.g == g && trail.files == files && trail.queue == queue && trail.head == head &&
      search == Search(w, r, files, trail.depths, queue, head, trail.level, seen, limitReached, search.placed,
                       search.current, search.followed, search.imported)
    }

    /** No candidate is being loaded, and the imports of all files were followed. */
    ghost predicate Idle()
      reads `files, `search
    {
      search.current == None && search.followed == |files|
    }

    /** The first k imports of the file found last were looked at. */
    ghost predicate Following(k: nat)
      reads `files, `search
    {
      search.current == None && search.followed + 1 == |files| && search.imported == k
    }

    /** This candidate is being loaded. */
    ghost predicate Loading(path: Path)
      reads `files, `search
    {
      search.current == Some(path) && search.followed == |files| &&
      (Still(w) ==> path in search.placed && search.placed[path] == search.level && !IsBridge(w, r, |files|))
    }

    /** The first skips are recorded, the rest only counted. */
    method Record(path: Path, reason: Reason)
      requires |skipped| <= MAX_RECORDED_SKIPS && LimitsRecorded(skipped, limitReached) && (reason == Limit ==> limitReached)
      modifies this`skipped, this`overflow
      ensures LimitsRecorded(skipped, limitReached)
      ensures |skipped| <= MAX_RECORDED_SKIPS && |skipped| + overflow == old(|skipped| + overflow) + 1
      ensures skipped == old(skipped) + (if old(|skipped|) < MAX_RECORDED_SKIPS then [Skip(path, reason)] else [])
    {
      if |skipped| < MAX_RECORDED_SKIPS {
        skipped := skipped + [Skip(path, reason)];
      } else {
        overflow := overflow + 1;
      }
    }

    method Add(path: Path, content: Text) returns (added: bool)
      requires Valid() && MayLoad(r, Held(), path) && r.bytes(content) <= MAX_FILE_BYTES
      requires IsRead(w, r, File(path, content)) && !limitReached
      modifies this`files, this`totalBytes, this`limitReached, this`skipped, this`overflow
      ensures Valid() && files == old(files) + (if added then [File(path, content)] else [])
      ensures added <==> |old(files)| < MAX_FILES && old(totalBytes) + r.bytes(content) <= MAX_TOTAL_BYTES
      ensures limitReached <==> !added
    {
      var size := r.bytes(content);
      if |files| >= MAX_FILES || totalBytes + size > MAX_TOTAL_BYTES {
        assert HasSize(w, r, path, size);
        limitReached := true;
        Record(path, Limit);
        return false;
      }
      StoredWithFile(w, r, Held(), File(path, content));
      files := files + [File(path, content)];
      totalBytes := totalBytes + size;
      added := true;
    }

    /** Loads one candidate, unless the limit was reached before it. */
    method Load(rel: Path) returns (content: Option<Text>)
      requires Valid() && DecodesShort(r) && MayLoad(r, Held(), rel)
      modifies this`files, this`totalBytes, this`limitReached, this`skipped, this`overflow, this`looks
      ensures Valid() && files == old(files) + (if content.Some? then [File(rel, content.value)] else [])
      ensures old(limitReached) ==> limitReached && content.None?
      ensures content.Some? ==> r.bytes(content.value) <= MAX_FILE_BYTES && !limitReached
      ensures Still(w) && !limitReached ==> IsWhatIsRead(w, r, rel, content)
    {
      content := None;
      if limitReached {
        Record(rel, Limit);
        return;
      }
      var inspection := w.inspect(looks, rel);
      looks := looks + 1;
      match inspection {
        case Absent =>
        case Refused(obstacle) => Record(rel, Blocked(obstacle));
        case Regular(size) => content := LoadRegular(rel, size, looks - 1);
      }
    }

    /** A regular file is read when the limits still allow its size. */
    method LoadRegular(rel: Path, size: nat, ghost t: nat) returns (content: Option<Text>)
      requires Valid() && DecodesShort(r) && MayLoad(r, Held(), rel) && !limitReached
      requires w.inspect(t, rel) == Regular(size)
      modifies this`files, this`totalBytes, this`limitReached, this`skipped, this`overflow, this`looks
      ensures Valid() && files == old(files) + (if content.Some? then [File(rel, content.value)] else [])
      ensures content.Some? ==> r.bytes(content.value) <= MAX_FILE_BYTES && !limitReached
      ensures Still(w) && !limitReached ==> IsWhatIsRead(w, r, rel, content)
    {
      content := None;
      if |files| >= MAX_FILES || totalBytes + size > MAX_TOTAL_BYTES {
        assert HasSize(w, r, rel, size);
        limitReached := true;
        Record(rel, Limit);
        return;
      }
      var reading := w.read(looks, rel);
      looks := looks + 1;
      match reading {
        case Gone =>
        case Unreadable(obstacle) => Record(rel, Blocked(obstacle));
        case Opened(bytes) => content := LoadOpened(rel, bytes, looks - 1);
      }
    }

    /** What was read, if it is within the limit and decodes: as text it is no longer. */
    method LoadOpened(rel: Path, bytes: Bytes, ghost t: nat) returns (content: Option<Text>)
      requires Valid() && DecodesShort(r) && MayLoad(r, Held(), rel) && !limitReached
      requires w.read(t, rel) == Opened(bytes)
      modifies this`files, this`totalBytes, this`limitReached, this`skipped, this`overflow
      ensures Valid() && files == old(files) + (if content.Some? then [File(rel, content.value)] else [])
      ensures content.Some? ==> r.bytes(content.value) <= MAX_FILE_BYTES && !limitReached
      ensures !limitReached ==> content == if |bytes| > MAX_FILE_BYTES then None else r.decode(bytes)
    {
      content := None;
      if |bytes| > MAX_FILE_BYTES {
        Record(rel, Blocked(TooLarge));
        return;
      }
      var decoded := r.decode(bytes);
      if decoded.None? {
        Record(rel, NotUtf8);
        return;
      }
      assert IsReadAt(w, r, File(rel, decoded.value), t);
      var added := Add(rel, decoded.value);
      if added {
        content := decoded;
      }
    }

    /** The k-th import of the file collected last: it waits when it is new, inside the repository and allowed. */
    method Enqueue(importer: Path, target: string, depth: nat, ghost k: nat)
      requires Valid() && OnTrail() && CanWait(w, r, g, files, trail.level) && depth == trail.level + 1 && Following(k)
      requires files[|files| - 1].path == importer && k < |Followed(w, files[|files| - 1].content)|
      requires target == Followed(w, files[|files| - 1].content)[k]
      modifies this`seen, this`queue, this`skipped, this`overflow, this`trail, this`search
      ensures Valid() && OnTrail() && trail.level == old(trail.level) && Following(k + 1)
    {
      var resolved := r.resolve(importer, target);
      if resolved.path in seen {
        search := SearchSkipsSeen(search);
      } else {
        Admit(resolved, depth, k);
      }
    }

    /** A path not seen before: reported when it is refused, waiting otherwise. */
    method Admit(resolved: Target, depth: nat, ghost k: nat)
      requires Valid() && OnTrail() && CanWait(w, r, g, files, trail.level) && depth == trail.level + 1 && Following(k)
      requires k < |Followed(w, files[|files| - 1].content)| && resolved == TargetOf(w, r, files[|files| - 1], k)
      requires resolved.path !in seen
      modifies this`seen, this`queue, this`skipped, this`overflow, this`trail, this`search
      ensures Valid() && OnTrail() && trail.level == old(trail.level) && Following(k + 1)
    {
      if resolved.Inside? && r.allowed(resolved.path) {
        Place(resolved.path, depth, k);
      } else {
        ghost var further := SearchRefuses(search);
        Refuse(resolved, further);
      }
    }

    /** It leads outside the repository, or to what may not be collected. */
    method Refuse(resolved: Target, ghost further: Searched)
      requires Valid() && resolved.path !in seen && trail.g == g && trail.files == files && trail.queue == queue && trail.head == head
      requires further == Search(w, r, files, trail.depths, queue, head, trail.level, seen + {resolved.path}, limitReached,
                                 further.placed, further.current, further.followed, further.imported)
      modifies this`seen, this`skipped, this`overflow, this`search
      ensures Valid() && OnTrail() && search == further
    {
      See(resolved.path);
      search := further;
      Record(resolved.path, if resolved.Outside? then OutsideRepo else NotAllowed);
    }

    /** It is a candidate. */
    method Place(path: Path, depth: nat, ghost k: nat)
      requires Valid() && OnTrail() && CanWait(w, r, g, files, trail.level) && depth == trail.level + 1 && Following(k)
      requires IsImport(w, r, files[|files| - 1], k, path) && path !in seen && r.allowed(path)
      modifies this`seen, this`queue, this`trail, this`search
      ensures Valid() && OnTrail() && trail.level == old(trail.level) && Following(k + 1)
    {
      ghost var longer := ImportWaits(w, r, trail, k, path);
      ghost var further := SearchPlaces(search);
      See(path);
      Wait(path, depth, longer, further);
    }

    /** A path is seen for the first time. */
    method See(path: Path)
      requires Valid() && path !in seen
      modifies this`seen
      ensures Valid() && seen == old(seen) + {path} && (r.allowed(path) ==> MayLoad(r, Held(), path))
    {
      StoredWithSeen(w, r, Held(), path);
      seen := seen + {path};
    }

    /** The path waits at the end of the queue. */
    method Wait(path: Path, depth: nat, ghost longer: Layers, ghost further: Searched)
      requires Valid() && MayLoad(r, Held(), path) && trail.g == g && trail.files == files && trail.head == head
      requires longer == trail.(queue := queue + [Entry(path, depth)])
      requires further == Search(w, r, files, trail.depths, queue + [Entry(path, depth)], head, trail.level, seen, limitReached,
                                 further.placed, further.current, further.followed, further.imported)
      modifies this`queue, this`trail, this`search
      ensures Valid() && OnTrail() && trail.level == old(trail.level) && search == further
    {
      StoredWithEntry(w, r, Held(), Entry(path, depth));
      queue := queue + [Entry(path, depth)];
      trail, search := longer, further;
    }

    /** The imports of the file collected last, as many as are followed. */
    method FollowImports(importer: Path, content: Text, depth: nat)
      requires Valid() && OnTrail() && CanWait(w, r, g, files, trail.level) && depth == trail.level + 1 && Following(0)
      requires files[|files| - 1] == File(importer, content)
      modifies this`seen, this`queue, this`skipped, this`overflow, this`trail, this`search
      ensures Valid() && OnTrail() && Idle()
    {
      var targets := w.imports(content);
      overflow := overflow + Max(0, |targets| - MAX_IMPORTS_PER_FILE);
      EnqueueAll(importer, Followed(w, content), depth);
      AllFollowed();
    }

    ghost method AllFollowed()
      requires OnTrail() && files != [] && Following(|Followed(w, files[|files| - 1].content)|)
      modifies this`search
      ensures OnTrail() && Idle()
    {
      search := SearchFollowed(search);
    }

    method EnqueueAll(importer: Path, followed: seq<string>, depth: nat)
      requires Valid() && OnTrail() && CanWait(w, r, g, files, trail.level) && depth == trail.level + 1 && Following(0)
      requires files[|files| - 1].path == importer && followed == Followed(w, files[|files| - 1].content)
      modifies this`seen, this`queue, this`skipped, this`overflow, this`trail, this`search
      ensures Valid() && OnTrail() && trail.level == old(trail.level) && Following(|followed|)
    {
      for k := 0 to |followed|
        invariant Valid() && OnTrail() && trail.level == old(trail.level) && Following(k)
      {
        Enqueue(importer, followed[k], depth, k);
      }
    }

    /** The roots, or the AGENTS.md under a bridge when there is neither root. */
    method Start()
      requires Covers(w, r, g) && AreUsable(r)
      requires Valid() && DecodesShort(r) && files == [] && totalBytes == 0 && queue == [] && head == 0 && seen == {} && !limitReached
      modifies this
      ensures Valid() && OnTrail() && Idle()
    {
      var bridged := LookForRoots();
      if bridged {
        StartFromAgents();
      } else {
        StartFromRoots();
      }
    }

    /** Both roots wait; whether AGENTS.md stands in for them. */
    method LookForRoots() returns (bridged: bool)
      requires AreUsable(r) && Valid() && files == [] && totalBytes == 0 && queue == [] && head == 0 && seen == {}
      modifies this`seen, this`queue, this`looks
      ensures seen == {r.root} + {r.nested} && queue == [Entry(r.root, 0), Entry(r.nested, 0)] && Valid()
      ensures Still(w) ==> (bridged <==> UsesBridge(w, r))
    {
      seen := {r.root};
      var first := w.inspect(looks, r.root);
      queue := [Entry(r.root, 0)];
      seen := seen + {r.nested};
      var second := w.inspect(looks + 1, r.nested);
      queue := queue + [Entry(r.nested, 0)];
      bridged := false;
      if first.Absent? && second.Absent? {
        var agentsFound := w.inspect(looks + 2, r.agents);
        bridged := !agentsFound.Absent?;
      }
      looks := looks + 3;
      StoredAtStart(w, r);
    }

    method StartFromRoots()
      requires Covers(w, r, g) && AreUsable(r) && (Still(w) ==> !UsesBridge(w, r))
      requires Valid() && files == [] && head == 0 && seen == {r.root} + {r.nested} && !limitReached
      requires queue == [Entry(r.root, 0), Entry(r.nested, 0)]
      modifies this`trail, this`search
      ensures Valid() && OnTrail() && Idle()
    {
      trail := StartLayered(w, r, g, queue);
      search := SearchStarts(w, r);
    }

    method StartFromAgents()
      requires Covers(w, r, g) && AreUsable(r) && (Still(w) ==> UsesBridge(w, r))
      requires Valid() && DecodesShort(r) && files == [] && totalBytes == 0 && seen == {r.root} + {r.nested} && !limitReached
      modifies this
      ensures Valid() && OnTrail() && Idle()
    {
      DropRoots();
      var agents := Load(r.agents);
      if agents.Some? {
        assert files == [File(r.agents, agents.value)];
        Bridge(agents.value);
      } else {
        EndEarly();
      }
    }

    method DropRoots()
      requires AreUsable(r) && Valid() && files == [] && totalBytes == 0 && seen == {r.root} + {r.nested}
      modifies this`queue, this`head, this`seen
      ensures Valid() && MayLoad(r, Held(), r.agents) && queue == [] && head == 0
      ensures seen == {r.root} + {r.nested} + {r.agents}
    {
      StoredFromAgents(w, r, seen);
      queue, head := [], 0;
      seen := seen + {r.agents};
    }

    method Bridge(agents: Text)
      requires Covers(w, r, g) && AreUsable(r) && !limitReached
      requires Valid() && files == [File(r.agents, agents)] && queue == [] && head == 0
      requires seen == {r.root} + {r.nested} + {r.agents} && r.bytes(agents) <= MAX_FILE_BYTES
      requires Still(w) ==> UsesBridge(w, r) && IsReadableAs(w, r, r.agents, agents)
      modifies this
      ensures Valid() && OnTrail() && Idle()
    {
      PutBridge(agents);
      FollowImports(r.agents, agents, 2);
    }

    method EndEarly()
      requires Covers(w, r, g) && AreUsable(r)
      requires Valid() && files == [] && queue == [] && head == 0 && seen == {r.root} + {r.nested} + {r.agents}
      requires Still(w) ==> UsesBridge(w, r) && (limitReached || !IsReadable(w, r, r.agents))
      modifies this`trail, this`search
      ensures Valid() && OnTrail() && Idle()
    {
      trail := StartLayered(w, r, g, queue);
      search := SearchEndsEarly(w, r, limitReached);
    }

    /** The bridge goes first, as the file that imports AGENTS.md; no limit is checked for it, and none needs to be. */
    method PutBridge(agents: Text)
      requires Covers(w, r, g) && AreUsable(r) && !limitReached
      requires Valid() && files == [File(r.agents, agents)] && queue == [] && head == 0
      requires seen == {r.root} + {r.nested} + {r.agents} && r.bytes(agents) <= MAX_FILE_BYTES
      requires Still(w) ==> UsesBridge(w, r) && IsReadableAs(w, r, r.agents, agents)
      modifies this`files, this`totalBytes, this`trail, this`search
      ensures Valid() && OnTrail() && trail.level == 1 && Following(0)
      ensures CanWait(w, r, g, files, 1) && files[|files| - 1] == File(r.agents, agents)
    {
      StoredWithBridge(w, r, Held(), files[0]);
      files := [File(r.root, r.bridge)] + files;
      assert files == [File(r.root, r.bridge), File(r.agents, agents)];
      totalBytes := totalBytes + r.bytes(r.bridge);
      trail := BridgeLayered(w, r, g, files);
      search := SearchBridges(w, r, agents);
    }

    /** The imports, breadth first, as deep as they are followed. */
    method Walk()
      requires Covers(w, r, g)
      requires Valid() && DecodesShort(r) && OnTrail() && Idle()
      modifies this
      ensures Valid() && OnTrail() && IsOver(search)
    {
      while head < |queue|
        invariant Valid() && OnTrail() && Idle()
        decreases MAX_FILES - |files|, |queue| - head
      {
        var next := TakeNext();
        Visit(next);
      }
    }

    /** The queue's head leaves it; its depth is the level now. */
    method TakeNext() returns (next: Entry)
      requires Valid() && OnTrail() && head < |queue| && Idle()
      modifies this`head, this`trail, this`search
      ensures Valid() && OnTrail() && head == old(head) + 1 && trail.level == next.depth
      ensures MayLoad(r, Held(), next.path) && Loading(next.path)
      ensures IsReached(g, files, next.path, trail.level)
    {
      StoredWithoutHead(w, r, Held());
      ghost var shorter := LayeredWithoutHead(trail);
      search := SearchTakes(search);
      trail := shorter;
      next := queue[head];
      head := head + 1;
    }

    /** The head of the queue, loaded, and its imports unless it lies too deep. */
    method Visit(next: Entry)
      requires Covers(w, r, g)
      requires Valid() && DecodesShort(r) && MayLoad(r, Held(), next.path) && OnTrail() && Loading(next.path)
      requires next.depth == trail.level && IsReached(g, files, next.path, trail.level)
      modifies this
      ensures Valid() && OnTrail() && Idle()
      ensures head == old(head)
      ensures |files| > |old(files)| || (|files| == |old(files)| && |queue| == |old(queue)|)
    {
      var content := LoadReached(next.path);
      if content.Some? {
        if next.depth < MAX_IMPORT_DEPTH {
          FollowImports(next.path, content.value, next.depth + 1);
        } else {
          search := SearchFollowed(search);
        }
      }
    }

    /** A load of a path that lies at this level. */
    method LoadReached(rel: Path) returns (content: Option<Text>)
      requires Valid() && DecodesShort(r) && MayLoad(r, Held(), rel) && Loading(rel)
      requires OnTrail() && IsReached(g, files, rel, trail.level)
      modifies this`files, this`totalBytes, this`limitReached, this`skipped, this`overflow, this`looks, this`trail, this`search
      ensures Valid() && OnTrail() && trail.level == old(trail.level)
      ensures |files| == |old(files)| + if content.Some? then 1 else 0
      ensures content.Some? ==>
                files[|files| - 1] == File(rel, content.value) && IsReached(g, files, rel, trail.level) && Following(0)
      ensures content.None? ==> Idle()
    {
      ghost var before := files;
      content := Load(rel);
      if content.Some? {
        FoundOne(File(rel, content.value), before);
      } else {
        search := SearchMisses(search, limitReached);
      }
    }

    /** The file is where the trail and the search go on from. */
    ghost method FoundOne(file: File, before: seq<File>)
      requires files == before + [file] && trail.g == g && trail.files == before && trail.queue == queue && trail.head == head
      requires search == Search(w, r, before, trail.depths, queue, head, trail.level, seen, limitReached, search.placed,
                                Some(file.path), |before|, search.imported)
      requires Still(w) ==>
                 IsReadableAs(w, r, file.path, file.content) && file.path in search.placed &&
                 search.placed[file.path] == search.level && !IsBridge(w, r, |before|)
      requires IsReached(g, before, file.path, trail.level)
      modifies this`trail, this`search
      ensures OnTrail() && trail.level == old(trail.level) && Following(0) && IsReached(g, files, file.path, trail.level)
    {
      search := SearchFinds(search, file);
      trail := LayeredWithFile(trail, file);
    }

    /** One skill, when its path is new, safe and allowed. */
    method AddSkill(rel: Path)
      requires Valid() && DecodesShort(r) && AllowedAreSafe(r) && SeenIsCollected(w, r, files, seen, limitReached)
      modifies this`files, this`totalBytes, this`limitReached, this`skipped, this`overflow, this`looks, this`seen
      ensures Valid() && AtMostOneMore(old(files), files, rel)
      ensures SeenIsCollected(w, r, files, seen, limitReached) && seen == old(seen) + {rel}
      ensures old(limitReached) ==> limitReached
    {
      if rel in seen {
        assert seen + {rel} == seen;
        return;
      }
      ghost var before, seenBefore, limitedBefore := files, seen, limitReached;
      See(rel);
      AddNewSkill(rel);
      SeenAndCollected(w, r, before, files, seenBefore, rel, limitedBefore, limitReached);
    }

    method AddNewSkill(rel: Path)
      requires Valid() && DecodesShort(r) && AllowedAreSafe(r) && (r.allowed(rel) ==> MayLoad(r, Held(), rel))
      modifies this`files, this`totalBytes, this`limitReached, this`skipped, this`overflow, this`looks
      ensures Valid() && AtMostOneMore(old(files), files, rel) && (old(limitReached) ==> limitReached)
      ensures Still(w) && !limitReached && r.allowed(rel) && IsReadable(w, r, rel) ==> HasFile(files, rel)
    {
      if !r.safe(rel) {
        Record(rel, OutsideRepo);
      } else if !r.allowed(rel) {
        Record(rel, NotAllowed);
      } else {
        LoadSkill(rel);
      }
    }

    method LoadSkill(rel: Path)
      requires Valid() && DecodesShort(r) && MayLoad(r, Held(), rel)
      modifies this`files, this`totalBytes, this`limitReached, this`skipped, this`overflow, this`looks
      ensures Valid() && AtMostOneMore(old(files), files, rel) && (old(limitReached) ==> limitReached)
      ensures Still(w) && !limitReached && IsReadable(w, r, rel) ==> HasFile(files, rel)
    {
      ghost var before := files;
      var content := Load(rel);
      if content.Some? {
        assert files[|before|].path == rel;
      }
    }

    /** The repository's skills, in the order of their listing, after everything else. */
    method AddSkills(paths: seq<Path>)
      requires Valid() && DecodesShort(r) && AllowedAreSafe(r) && SeenIsCollected(w, r, files, seen, limitReached)
      modifies this`files, this`totalBytes, this`limitReached, this`skipped, this`overflow, this`looks, this`seen
      ensures Valid() && ComeFrom(paths, files, |old(files)|) && old(files) <= files
      ensures SeenIsCollected(w, r, files, seen, limitReached) && AreSeen(paths, seen, |paths|)
      ensures old(limitReached) ==> limitReached
    {
      if w.skills.refused {
        Record(SKILLS_DIR, Blocked(Symlink));
      }
      if w.skills.truncated {
        overflow := overflow + 1;
      }
      AddEach(paths);
    }

    method AddEach(paths: seq<Path>)
      requires Valid() && DecodesShort(r) && AllowedAreSafe(r) && SeenIsCollected(w, r, files, seen, limitReached)
      modifies this`files, this`totalBytes, this`limitReached, this`skipped, this`overflow, this`looks, this`seen
      ensures Valid() && ComeFrom(paths, files, |old(files)|) && old(files) <= files
      ensures SeenIsCollected(w, r, files, seen, limitReached) && AreSeen(paths, seen, |paths|)
      ensures old(limitReached) ==> limitReached
    {
      ghost var start, limited := files, limitReached;
      for n := 0 to |paths|
        invariant Valid() && ComeFrom(paths, files, |start|) && start <= files && (limited ==> limitReached)
        invariant SeenIsCollected(w, r, files, seen, limitReached) && AreSeen(paths, seen, n)
      {
        AddNext(paths, n, start);
      }
    }

    method AddNext(paths: seq<Path>, n: nat, ghost start: seq<File>)
      requires Valid() && DecodesShort(r) && AllowedAreSafe(r) && SeenIsCollected(w, r, files, seen, limitReached)
      requires n < |paths| && ComeFrom(paths, files, |start|) && start <= files && AreSeen(paths, seen, n)
      modifies this`files, this`totalBytes, this`limitReached, this`skipped, this`overflow, this`looks, this`seen
      ensures Valid() && ComeFrom(paths, files, |start|) && start <= files && (old(limitReached) ==> limitReached)
      ensures SeenIsCollected(w, r, files, seen, limitReached) && AreSeen(paths, seen, n + 1)
    {
      ghost var before := files;
      AddSkill(paths[n]);
      MoreFrom(paths, before, files, |start|, n);
    }

    /** Everything but the skills. */
    method AddInstructions()
      requires Covers(w, r, g) && AreUsable(r)
      requires Valid() && DecodesShort(r) && files == [] && totalBytes == 0 && queue == [] && head == 0 && seen == {} && !limitReached
      modifies this
      ensures Valid() && SeenIsCollected(w, r, files, seen, limitReached)
      ensures |trail.depths| == |files| && FilesWithin(g, files, trail.depths, |files|)
      ensures Still(w) && !limitReached ==> FindsInstructions(w, r, files, trail.depths)
    {
      Start();
      Walk();
      SearchIsOver(trail, search);
    }
  }

  /** What the walk and the search say when they are over. */
  lemma {:induction false} SearchIsOver(t: Layers, s: Searched)
    requires t.files == s.files && t.depths == s.depths && IsOver(s)
    ensures |t.depths| == |t.files| && FilesWithin(t.g, t.files, t.depths, |t.files|)
    ensures SeenIsCollected(s.w, s.r, s.files, s.seen, s.limited)
    ensures Still(s.w) && !s.limited ==> FindsInstructions(s.w, s.r, s.files, s.depths)
  {
    SeenWasCollected(s);
    if Still(s.w) && !s.limited {
      SearchFindsInstructions(s);
    }
  }

  /** Nothing more, or one file of this path. */
  predicate AtMostOneMore(files: seq<File>, files': seq<File>, path: Path) {
    files' == files || (|files'| == |files| + 1 && files <= files' && files'[|files|].path == path)
  }

  /** The first n paths were seen. */
  ghost predicate AreSeen(paths: seq<Path>, seen: set<Path>, n: nat)
    requires n <= |paths|
  {
    forall k :: 0 <= k < n ==> paths[k] in seen
  }

  /** What may be collected is a safe path. */
  ghost predicate AllowedAreSafe(r: Rules) {
    forall path :: r.allowed(path) ==> r.safe(path)
  }

  /** From the n-th on, the files are of these paths. */
  ghost predicate ComeFrom(paths: seq<Path>, files: seq<File>, n: nat) {
    forall i :: n <= i < |files| ==> files[i].path in paths
  }

  lemma {:induction false} MoreFrom(paths: seq<Path>, files: seq<File>, files': seq<File>, n: nat, k: nat)
    requires ComeFrom(paths, files, n) && k < |paths| && AtMostOneMore(files, files', paths[k])
    ensures ComeFrom(paths, files', n) && files <= files'
  {
  }

  const SKILLS_DIR := ".claude/skills"

  function SkillFile(name: string): Path {
    SKILLS_DIR + "/" + name + "/SKILL.md"
  }

  function SkillFiles(names: seq<string>): (paths: seq<Path>)
    ensures |paths| == |names| && forall k :: 0 <= k < |names| ==> paths[k] == SkillFile(names[k])
  {
    seq(|names|, k requires 0 <= k < |names| => SkillFile(names[k]))
  }

  /**
   * Whatever the repository holds, and however it changes while it is read, the
   * context meets the worker's input schema with allowed paths only; its
   * instructions are in breadth-first order, each reached from a root through at
   * most five imports, its skills come after them, and every content is what was
   * read, or the bridge. The limit is given as a reason only where one is passed;
   * where none is, and the repository does not change, all its instructions and
   * all its skills are there.
   */
  method BuildClaudeContext(w: Workspace, skills: bool, ghost g: Graph)
    returns (files: seq<File>, skipped: seq<Skip>, overflow: nat,
             ghost instructions: seq<File>, ghost depths: seq<nat>, ghost limited: bool)
    requires IsGraphOf(w, RulesOf(w), g)
    ensures MeetsSchema(RulesOf(w), files) && IsGenuine(w, RulesOf(w), files) && |skipped| <= MAX_RECORDED_SKIPS
    ensures instructions <= files && |depths| == |instructions| && FilesWithin(g, instructions, depths, |instructions|)
    ensures ComeFrom(SkillFiles(w.skills.names), files, |instructions|) && (files != instructions ==> skills)
    ensures limited ==> PassesLimit(w, RulesOf(w), |files|, BytesOf(RulesOf(w), files, |files|))
    ensures !limited ==> forall i :: 0 <= i < |skipped| ==> skipped[i].reason != Limit
    ensures Still(w) && !limited ==> FindsInstructions(w, RulesOf(w), instructions, depths)
    ensures Still(w) && !limited && NamesAreClear(w, RulesOf(w)) && skills ==>
              HasAll(w, RulesOf(w), SkillFiles(w.skills.names), files)
  {
    RulesAreUsable(w);
    RulesDecodeShort(w);
    files, skipped, overflow, instructions, depths, limited := Collect(w, RulesOf(w), skills, g);
  }

  /** The same, by any usable rules. */
  method Collect(w: Workspace, r: Rules, skills: bool, ghost g: Graph)
    returns (files: seq<File>, skipped: seq<Skip>, overflow: nat,
             ghost instructions: seq<File>, ghost depths: seq<nat>, ghost limited: bool)
    requires IsGraphOf(w, r, g) && AreUsable(r) && AllowedAreSafe(r) && DecodesShort(r)
    ensures MeetsSchema(r, files) && IsGenuine(w, r, files) && |skipped| <= MAX_RECORDED_SKIPS
    ensures instructions <= files && |depths| == |instructions| && FilesWithin(g, instructions, depths, |instructions|)
    ensures ComeFrom(SkillFiles(w.skills.names), files, |instructions|) && (files != instructions ==> skills)
    ensures limited ==> PassesLimit(w, r, |files|, BytesOf(r, files, |files|))
    ensures !limited ==> forall i :: 0 <= i < |skipped| ==> skipped[i].reason != Limit
    ensures Still(w) && !limited ==> FindsInstructions(w, r, instructions, depths)
    ensures Still(w) && !limited && NamesAreClear(w, r) && skills ==> HasAll(w, r, SkillFiles(w.skills.names), files)
  {
    var c := new Collector(w, r, g);
    c.AddInstructions();
    instructions, depths := c.files, c.trail.depths;
    if skills {
      var paths := SkillFiles(w.skills.names);
      c.AddSkills(paths);
      SeenAreThere(w, r, paths, c.files, c.seen, c.limitReached);
    }
    StoredMeetsSchema(w, r, c.Held());
    files, skipped, overflow, limited := c.files, c.skipped, c.overflow, c.limitReached;
  }

  /** Every one of these paths that may be collected and can be read is among the files. */
  ghost predicate HasAll(w: Workspace, r: Rules, paths: seq<Path>, files: seq<File>) {
    forall path :: path in paths && r.allowed(path) && IsReadable(w, r, path) ==> HasFile(files, path)
  }

  lemma {:induction false} SeenAreThere(w: Workspace, r: Rules, paths: seq<Path>, files: seq<File>, seen: set<Path>,
                                        limited: bool)
    requires SeenIsCollected(w, r, files, seen, limited) && AreSeen(paths, seen, |paths|)
    ensures Still(w) && !limited && NamesAreClear(w, r) ==> HasAll(w, r, paths, files)
  {
  }

  lemma RulesAreUsable(w: Workspace)
    ensures AreUsable(RulesOf(w)) && AllowedAreSafe(RulesOf(w))
  {
    NamedFileAllowed(ROOTS[0]);
    NestedFileAllowed();
    NamedFileAllowed(AGENTS);
    BridgeBytes();
    assert ROOTS[0][0] != ROOTS[1][0] && ROOTS[0][0] != AGENTS[0];
  }

  /** The program's own rules. */
  function RulesOf(w: Workspace): Rules {
    Rules(IsSafe, IsAllowed, DecodeUtf8, ByteLength, (importer, target) => Resolve(w, importer, target),
          ROOTS[0], ROOTS[1], AGENTS, AGENTS_BRIDGE)
  }

  lemma RulesDecodeShort(w: Workspace)
    ensures DecodesShort(RulesOf(w))
  {
    forall bytes | DecodeUtf8(bytes).Some? ensures ByteLength(DecodeUtf8(bytes).value) <= |bytes| {
      DecodingKeepsLength(bytes);
    }
  }
}

/** A repository of which something is left out: a home-relative import hides a file of the same name. */
module HiddenImports {
  import opened Common
  import opened JsonScan
  import opened ContextPaths
  import opened ContextCollector
  import opened ContextSearch
  import opened ContextWalk
  import opened Utf8

  const HOME_LIKE: Path := "~a.md"
  const WRITTEN_OUT := "./~a.md"

  /** Both files import first what is at home, by "~a.md", and then the repository's own file of that name. */
  function Hiding(): Workspace {
    Workspace((t: nat, path: Path) => if path == ROOTS[0] || path == HOME_LIKE then Regular(1) else Absent,
              (t: nat, path: Path) => if path == ROOTS[0] || path == HOME_LIKE then Opened([0x78]) else Gone,
              (text: Text) => [HOME_LIKE, WRITTEN_OUT],
              (importer: Path, target: string) => HOME_LIKE,
              Skills([], false, false))
  }

  lemma HomeLikeIsAllowed()
    ensures IsAllowed(HOME_LIKE)
  {
    OneSegment(HOME_LIKE);
  }

  lemma BothAreReadable()
    ensures Still(Hiding())
    ensures IsReadableAs(Hiding(), RulesOf(Hiding()), ROOTS[0], [0x78])
    ensures IsReadableAs(Hiding(), RulesOf(Hiding()), HOME_LIKE, [0x78])
  {
    var bytes: Bytes := [0x78];
    assert CharacterAt(bytes, 0) == Some(Decoded(0x78, 1)) && UnitsOf(0x78) == [0x78];
    assert DecodeFrom(bytes, 1) == Some([]);
    assert DecodeFrom(bytes, 0) == Some([0x78] + []) && [0x78] + [] == [0x78];
  }

  lemma WithinReach()
    ensures IsWithinReach(Hiding(), RulesOf(Hiding()), HOME_LIKE)
  {
    var w, r := Hiding(), RulesOf(Hiding());
    var root: File := File(ROOTS[0], [0x78]);
    BothAreReadable();
    HomeLikeIsAllowed();
    assert !UsesBridge(w, r) && IsAway(w, r, ROOTS[0], 0);
    assert Followed(w, root.content) == [HOME_LIKE, WRITTEN_OUT];
    assert IsImport(w, r, root, 1, HOME_LIKE);
    assert Links(w, r, ROOTS[0], HOME_LIKE);
    assert IsAway(w, r, HOME_LIKE, 1);
  }

  /** Whatever files there are, the first import that names "~a.md" leads outside. */
  lemma NamedOutsideFirst(files: seq<File>, depths: seq<nat>)
    ensures !IsFirstNamed(Hiding(), RulesOf(Hiding()), files, depths, HOME_LIKE, true)
  {
    var w, r := Hiding(), RulesOf(Hiding());
    forall i: nat, k: nat | IsFirstMention(w, r, files, depths, i, k, HOME_LIKE)
      ensures TargetOf(w, r, files[i], k).Outside?
    {
      assert Followed(w, files[i].content) == [HOME_LIKE, WRITTEN_OUT];
      assert TargetOf(w, r, files[i], 0) == Outside(HOME_LIKE);
      assert Mentions(w, r, files, depths, i, 0, HOME_LIKE);
    }
  }

  /** The file is allowed, readable and one import away from the root, and it is not collected. */
  lemma HomeImportHides(files: seq<File>, depths: seq<nat>)
    requires FindsInstructions(Hiding(), RulesOf(Hiding()), files, depths)
    ensures var w, r := Hiding(), RulesOf(Hiding());
            r.allowed(HOME_LIKE) && IsReadable(w, r, HOME_LIKE) && IsWithinReach(w, r, HOME_LIKE) &&
            !IsCollected(w, r, files, HOME_LIKE)
  {
    HomeLikeIsAllowed();
    BothAreReadable();
    WithinReach();
    NamedOutsideFirst(files, depths);
    assert !IsStart(Hiding(), RulesOf(Hiding()), HOME_LIKE);
  }
}
