/**
 * Completeness of the collector (buildClaudeContext in src/coding/claude-context.ts):
 * in a repository that does not change while it is read, and unless a limit is
 * passed, what is collected is everything that the imports lead to.
 */
module ContextSearch {
  import opened Common
  import opened JsonScan
  import opened ContextPaths
  import opened ContextCollector
  import opened Utf8

  // ---- what there is to find ----------------------------------------------

  /** Every look at a path finds the same. */
  ghost predicate Still(w: Workspace) {
    (forall t, path :: w.inspect(t, path) == w.inspect(0, path)) && (forall t, path :: w.read(t, path) == w.read(0, path))
  }

  /** The path is a regular file that can be read and decoded, with this content. */
  ghost predicate IsReadableAs(w: Workspace, r: Rules, path: Path, content: Text) {
    w.inspect(0, path).Regular? && w.read(0, path).Opened? && |w.read(0, path).bytes| <= 65536 &&
    r.decode(w.read(0, path).bytes) == Some(content)
  }

  ghost predicate IsReadable(w: Workspace, r: Rules, path: Path) {
    exists content :: IsReadableAs(w, r, path, content)
  }

  /** Neither root exists and AGENTS.md does: it is imported by the bridge instead. */
  predicate UsesBridge(w: Workspace, r: Rules) {
    w.inspect(0, r.root).Absent? && w.inspect(0, r.nested).Absent? && !w.inspect(0, r.agents).Absent?
  }

  predicate IsStart(w: Workspace, r: Rules, path: Path) {
    if UsesBridge(w, r) then path == r.agents else path == r.root || path == r.nested
  }

  /** A readable file at `from` imports the allowed path. */
  ghost predicate Links(w: Workspace, r: Rules, from: Path, path: Path) {
    r.allowed(path) &&
    exists content :: IsReadableAs(w, r, from, content) && Imports(w, r, File(from, content), path)
  }

  /** The path is that many imports away from a root; AGENTS.md is one away from its bridge. */
  ghost predicate IsAway(w: Workspace, r: Rules, path: Path, d: nat)
    decreases d
  {
    (IsStart(w, r, path) && d == if UsesBridge(w, r) then 1 else 0) ||
    (d > 0 && exists from :: IsAway(w, r, from, d - 1) && Links(w, r, from, path))
  }

  /** At most five imports away from a root. */
  ghost predicate IsWithinReach(w: Workspace, r: Rules, path: Path) {
    exists d: nat :: d <= 5 && IsAway(w, r, path, d)
  }

  /** No file names by an import that leads outside what may be collected. */
  ghost predicate NamesAreClear(w: Workspace, r: Rules) {
    forall from, content, k: nat :: IsReadableAs(w, r, from, content) ==> !NamesOutside(w, r, File(from, content), k)
  }

  /** The k-th import followed in this file leads outside the repository, under an allowed name. */
  ghost predicate NamesOutside(w: Workspace, r: Rules, file: File, k: nat) {
    k < |Followed(w, file.content)| &&
    var target := r.resolve(file.path, Followed(w, file.content)[k]);
    target.Outside? && r.allowed(target.path)
  }

  // ---- which import names a path first ------------------------------------

  /** In bridge mode the first file is the bridge, which is not read and whose imports are not followed. */
  predicate IsBridge(w: Workspace, r: Rules, i: nat) {
    i == 0 && UsesBridge(w, r)
  }

  /** The k-th import of file i, whose imports are followed, names the path. */
  ghost predicate Mentions(w: Workspace, r: Rules, files: seq<File>, depths: seq<nat>, i: nat, k: nat, path: Path) {
    i < |files| == |depths| && !IsBridge(w, r, i) && depths[i] < MAX_IMPORT_DEPTH &&
    k < |Followed(w, files[i].content)| && TargetOf(w, r, files[i], k).path == path
  }

  function TargetOf(w: Workspace, r: Rules, file: File, k: nat): Target
    requires k < |Followed(w, file.content)|
  {
    r.resolve(file.path, Followed(w, file.content)[k])
  }

  ghost predicate IsFirstMention(w: Workspace, r: Rules, files: seq<File>, depths: seq<nat>, i: nat, k: nat, path: Path) {
    Mentions(w, r, files, depths, i, k, path) &&
    forall i': nat, k': nat :: Mentions(w, r, files, depths, i', k', path) ==> i < i' || (i == i' && k <= k')
  }

  /** The first import that names the path leads inside the repository, or outside. */
  ghost predicate IsFirstNamed(w: Workspace, r: Rules, files: seq<File>, depths: seq<nat>, path: Path, inside: bool) {
    exists i: nat, k: nat :: IsFirstMention(w, r, files, depths, i, k, path) && TargetOf(w, r, files[i], k).Inside? == inside
  }

  /** A file more comes after all that was named before. */
  lemma {:induction false} FirstNamedStays(w: Workspace, r: Rules, files: seq<File>, depths: seq<nat>, file: File, d: nat,
                                           path: Path, inside: bool)
    requires |files| == |depths| && IsFirstNamed(w, r, files, depths, path, inside)
    ensures IsFirstNamed(w, r, files + [file], depths + [d], path, inside)
  {
    var i: nat, k: nat :| IsFirstMention(w, r, files, depths, i, k, path) && TargetOf(w, r, files[i], k).Inside? == inside;
    forall i': nat, k': nat | Mentions(w, r, files + [file], depths + [d], i', k', path) ensures i < i' || (i == i' && k <= k') {
      if i' < |files| {
        assert Mentions(w, r, files, depths, i', k', path);
      }
    }
    assert Mentions(w, r, files + [file], depths + [d], i, k, path);
    assert IsFirstMention(w, r, files + [file], depths + [d], i, k, path);
  }

  /** The first mention leads one way. */
  lemma {:induction false} NamedOneWay(w: Workspace, r: Rules, files: seq<File>, depths: seq<nat>, path: Path)
    ensures !(IsFirstNamed(w, r, files, depths, path, true) && IsFirstNamed(w, r, files, depths, path, false))
  {
    if i: nat, k: nat :| IsFirstMention(w, r, files, depths, i, k, path) && TargetOf(w, r, files[i], k).Inside? {
      forall j: nat, l: nat | IsFirstMention(w, r, files, depths, j, l, path) ensures i == j && k == l {
        assert Mentions(w, r, files, depths, i, k, path) && Mentions(w, r, files, depths, j, l, path);
      }
    }
  }

  // ---- the search ---------------------------------------------------------

  /** The path's own file was collected. */
  ghost predicate IsCollected(w: Workspace, r: Rules, files: seq<File>, path: Path) {
    exists i :: 0 <= i < |files| && files[i].path == path && !IsBridge(w, r, i)
  }

  ghost predicate IsWaiting(queue: seq<Entry>, head: nat, path: Path) {
    exists k :: head <= k < |queue| && queue[k].path == path
  }

  /**
   * How far the search is: the files and how deep they lie, what waits, what was
   * seen, at which depth each candidate was placed, the one being loaded, how
   * many files' imports were followed, and how many of the next one's.
   */
  datatype Search = Search(w: Workspace, r: Rules, files: seq<File>, depths: seq<nat>, queue: seq<Entry>, head: nat,
                           level: nat, seen: set<Path>, limited: bool, placed: map<Path, nat>, current: Option<Path>,
                           followed: nat, imported: nat)

  /** The k-th import of file i was looked at. */
  ghost predicate IsHandled(s: Search, i: nat, k: nat)
    requires i < |s.files| == |s.depths| && k < |Followed(s.w, s.files[i].content)|
  {
    var path := TargetOf(s.w, s.r, s.files[i], k).path;
    path in s.seen && (path in s.placed ==> s.placed[path] <= s.depths[i] + 1)
  }

  /** What becomes of a candidate: it waits, is loaded, or was; then it was collected if it could be read. */
  ghost predicate IsSettled(s: Search, path: Path) {
    s.limited || s.current == Some(path) || IsWaiting(s.queue, s.head, path) || IsCollected(s.w, s.r, s.files, path) ||
    !IsReadable(s.w, s.r, path)
  }

  ghost predicate IsPlaced(s: Search, path: Path)
    requires path in s.placed
  {
    path in s.seen && s.r.allowed(path) && s.placed[path] <= s.level + 1 && s.placed[path] <= MAX_IMPORT_DEPTH &&
    IsAway(s.w, s.r, path, s.placed[path]) &&
    (IsStart(s.w, s.r, path) || IsFirstNamed(s.w, s.r, s.files, s.depths, path, true))
  }

  ghost predicate IsFound(s: Search, i: nat)
    requires i < |s.files| == |s.depths|
  {
    s.depths[i] <= s.level &&
    if IsBridge(s.w, s.r, i) then s.files[i] == File(s.r.root, s.r.bridge)
    else
      s.files[i].path in s.placed && s.placed[s.files[i].path] == s.depths[i] &&
      IsReadableAs(s.w, s.r, s.files[i].path, s.files[i].content)
  }

  ghost predicate FilesFound(s: Search) {
    |s.depths| == |s.files| && forall i :: 0 <= i < |s.files| ==> IsFound(s, i)
  }

  ghost predicate QueuePlaced(s: Search) {
    forall k :: s.head <= k < |s.queue| ==> s.queue[k].path in s.placed && s.placed[s.queue[k].path] == s.queue[k].depth
  }

  ghost predicate CandidatesPlaced(s: Search) {
    forall path :: path in s.placed ==> IsPlaced(s, path) && IsSettled(s, path)
  }

  /** What was seen and is no candidate may not be collected, cannot be read, or was first named as outside. */
  ghost predicate IsRefused(s: Search, path: Path) {
    !s.r.allowed(path) || !IsReadable(s.w, s.r, path) || IsFirstNamed(s.w, s.r, s.files, s.depths, path, false)
  }

  ghost predicate RestRefused(s: Search) {
    forall path :: path in s.seen && path !in s.placed ==> IsRefused(s, path)
  }

  ghost predicate AllHandled(s: Search, i: nat, n: nat)
    requires i < |s.files| == |s.depths| && n <= |Followed(s.w, s.files[i].content)|
  {
    forall k :: 0 <= k < n ==> IsHandled(s, i, k)
  }

  ghost predicate ImportsFollowed(s: Search) {
    s.followed <= |s.files| <= s.followed + 1 && |s.depths| == |s.files| &&
    (forall i :: 0 <= i < s.followed && !IsBridge(s.w, s.r, i) && s.depths[i] < MAX_IMPORT_DEPTH ==>
      AllHandled(s, i, |Followed(s.w, s.files[i].content)|)) &&
    (s.followed < |s.files| ==>
      !IsBridge(s.w, s.r, s.followed) && s.depths[s.followed] == s.level && s.current == None &&
      s.imported <= |Followed(s.w, s.files[s.followed].content)| && AllHandled(s, s.followed, s.imported))
  }

  /** The roots are candidates from the start. */
  ghost predicate StartsPlaced(s: Search) {
    forall start :: IsStart(s.w, s.r, start) ==>
      s.r.allowed(start) && start in s.placed && s.placed[start] <= if UsesBridge(s.w, s.r) then 1 else 0
  }

  /** Behind the bridge nothing waits before AGENTS.md was read. */
  ghost predicate BridgeFirst(s: Search) {
    UsesBridge(s.w, s.r) && s.files == [] ==> s.queue == []
  }

  ghost predicate IsSearched(s: Search) {
    Still(s.w) ==>
      FilesFound(s) && QueuePlaced(s) && CandidatesPlaced(s) && RestRefused(s) && ImportsFollowed(s) && StartsPlaced(s) &&
      BridgeFirst(s)
  }

  type Searched = s: Search | IsSearched(s)
    ghost witness Search(NOWHERE, ANYTHING, [], [], [], 0, 0, {[]}, true, map[[] := 0], None, 0, 0)

  ghost const NOWHERE :=
    Workspace((t, path) => Absent, (t, path) => Gone, text => [], (path, target) => path, Skills([], false, false))
  ghost const ANYTHING :=
    Rules(path => true, path => true, bytes => None, text => 0, (path, target) => Inside(path), [], [], [], [])

  // ---- its steps ----------------------------------------------------------

  /** The head of the queue leaves it to be loaded. */
  lemma {:induction false} SearchTakes(s: Searched) returns (s': Searched)
    requires s.head < |s.queue| && s.followed == |s.files| && s.current == None
    requires s.level <= s.queue[s.head].depth
    ensures s' == s.(head := s.head + 1, level := s.queue[s.head].depth, current := Some(s.queue[s.head].path))
    ensures Still(s.w) ==>
              s.queue[s.head].path in s.placed && s.placed[s.queue[s.head].path] == s'.level &&
              !IsBridge(s.w, s.r, |s.files|)
  {
    var later: Search := s.(head := s.head + 1, level := s.queue[s.head].depth, current := Some(s.queue[s.head].path));
    if Still(s.w) {
      TakesCandidates(s, later);
      forall i | 0 <= i < |s.files| ensures IsFound(later, i) {
        assert IsFound(s, i);
      }
      SameHandled(s, later);
    }
    s' := later;
  }

  lemma {:induction false} TakesCandidates(s: Search, s': Search)
    requires CandidatesPlaced(s) && s.head < |s.queue| && s.level <= s.queue[s.head].depth && s.current == None
    requires s' == s.(head := s.head + 1, level := s.queue[s.head].depth, current := Some(s.queue[s.head].path))
    ensures CandidatesPlaced(s')
  {
    forall path | path in s'.placed ensures IsPlaced(s', path) && IsSettled(s', path) {
      assert IsPlaced(s, path) && IsSettled(s, path);
      if IsWaiting(s.queue, s.head, path) {
        var k :| s.head <= k < |s.queue| && s.queue[k].path == path;
        assert k == s.head || IsWaiting(s'.queue, s'.head, path);
      }
    }
  }

  /** Handling depends on the files, what was seen and what was placed. */
  lemma {:induction false} SameHandled(s: Search, s': Search)
    requires ImportsFollowed(s) && s.followed == |s.files| == |s'.files| && s'.followed == s.followed
    requires s'.w == s.w && s'.r == s.r && s'.files == s.files && s'.depths == s.depths
    requires s'.seen == s.seen && s'.placed == s.placed
    ensures ImportsFollowed(s') && forall path :: IsRefused(s, path) ==> IsRefused(s', path)
  {
    forall i | 0 <= i < s'.followed && !IsBridge(s.w, s.r, i) && s.depths[i] < MAX_IMPORT_DEPTH
      ensures AllHandled(s', i, |Followed(s.w, s.files[i].content)|)
    {
      assert AllHandled(s, i, |Followed(s.w, s.files[i].content)|);
      forall k | 0 <= k < |Followed(s.w, s.files[i].content)| ensures IsHandled(s', i, k) {
        assert IsHandled(s, i, k);
      }
    }
  }

  /** The candidate could not be read, or a limit was passed. */
  lemma {:induction false} SearchMisses(s: Searched, limited: bool) returns (s': Searched)
    requires s.followed == |s.files| && s.current.Some? && (s.limited ==> limited)
    requires Still(s.w) ==> limited || !IsReadable(s.w, s.r, s.current.value)
    ensures s' == s.(current := None, limited := limited)
  {
    var later: Search := s.(current := None, limited := limited);
    if Still(s.w) {
      forall path | path in later.placed ensures IsPlaced(later, path) && IsSettled(later, path) {
        assert IsPlaced(s, path) && IsSettled(s, path);
      }
      forall i | 0 <= i < |s.files| ensures IsFound(later, i) {
        assert IsFound(s, i);
      }
      SameHandled(s, later);
    }
    s' := later;
  }

  /** The candidate was read, and its imports are next. */
  lemma {:induction false} SearchFinds(s: Searched, file: File) returns (s': Searched)
    requires s.followed == |s.files| && s.current == Some(file.path)
    requires Still(s.w) ==>
               IsReadableAs(s.w, s.r, file.path, file.content) && file.path in s.placed && s.placed[file.path] == s.level &&
               !IsBridge(s.w, s.r, |s.files|)
    ensures s' == s.(files := s.files + [file], depths := s.depths + [s.level], current := None, imported := 0)
  {
    var later: Search := s.(files := s.files + [file], depths := s.depths + [s.level], current := None, imported := 0);
    if Still(s.w) {
      FindsAll(s, later, file);
    }
    s' := later;
  }

  lemma {:induction false} FindsAll(s: Search, s': Search, file: File)
    requires Still(s.w) && IsSearched(s) && Finds(s, s', file)
    requires IsReadableAs(s.w, s.r, file.path, file.content) && file.path in s.placed && s.placed[file.path] == s.level
    ensures IsSearched(s')
  {
    FindsCandidates(s, s', file);
    FindsBeside(s, s', file);
    EarlierHandled(s, s');
  }

  ghost predicate Finds(s: Search, s': Search, file: File) {
    s.followed == |s.files| == |s.depths| && s.current == Some(file.path) && !IsBridge(s.w, s.r, |s.files|) &&
    s' == s.(files := s.files + [file], depths := s.depths + [s.level], current := None, imported := 0)
  }

  lemma {:induction false} FindsCandidates(s: Search, s': Search, file: File)
    requires Finds(s, s', file) && CandidatesPlaced(s)
    ensures CandidatesPlaced(s')
  {
    forall path | path in s'.placed ensures IsPlaced(s', path) && IsSettled(s', path) {
      assert IsPlaced(s, path) && IsSettled(s, path);
      if !IsStart(s.w, s.r, path) {
        FirstNamedStays(s.w, s.r, s.files, s.depths, file, s.level, path, true);
      }
      FileCollects(s, file, path);
    }
  }

  lemma {:induction false} FindsBeside(s: Search, s': Search, file: File)
    requires Finds(s, s', file) && FilesFound(s) && RestRefused(s)
    requires IsReadableAs(s.w, s.r, file.path, file.content) && file.path in s.placed && s.placed[file.path] == s.level
    ensures FilesFound(s') && RestRefused(s')
  {
    forall path | path in s'.seen && path !in s'.placed ensures IsRefused(s', path) {
      assert IsRefused(s, path);
      if IsFirstNamed(s.w, s.r, s.files, s.depths, path, false) {
        FirstNamedStays(s.w, s.r, s.files, s.depths, file, s.level, path, false);
      }
    }
    forall i | 0 <= i < |s'.files| ensures IsFound(s', i) {
      if i < |s.files| {
        assert IsFound(s, i) && s'.files[i] == s.files[i] && s'.depths[i] == s.depths[i];
      }
    }
  }

  lemma {:induction false} FileCollects(s: Search, file: File, path: Path)
    requires !IsBridge(s.w, s.r, |s.files|)
    ensures path == file.path || IsCollected(s.w, s.r, s.files, path) ==> IsCollected(s.w, s.r, s.files + [file], path)
  {
    var files := s.files + [file];
    if path == file.path {
      assert files[|s.files|].path == path;
    } else if IsCollected(s.w, s.r, s.files, path) {
      var i :| 0 <= i < |s.files| && s.files[i].path == path && !IsBridge(s.w, s.r, i);
      assert files[i].path == path;
    }
  }

  lemma {:induction false} EarlierHandled(s: Search, s': Search)
    requires ImportsFollowed(s) && s.followed == |s.files| && |s'.files| == |s'.depths| == |s.files| + 1
    requires s'.w == s.w && s'.r == s.r && s'.files[..|s.files|] == s.files && s'.depths[..|s.files|] == s.depths
    requires s'.seen == s.seen && s'.placed == s.placed && s'.followed == s.followed && s'.imported == 0
    requires !IsBridge(s.w, s.r, |s.files|) && s'.depths[|s.files|] == s'.level && s'.current == None
    ensures ImportsFollowed(s')
  {
    forall i | 0 <= i < s'.followed && !IsBridge(s.w, s.r, i) && s'.depths[i] < MAX_IMPORT_DEPTH
      ensures AllHandled(s', i, |Followed(s.w, s'.files[i].content)|)
    {
      assert s'.files[i] == s.files[i] && s'.depths[i] == s.depths[i];
      assert AllHandled(s, i, |Followed(s.w, s.files[i].content)|);
      forall k | 0 <= k < |Followed(s.w, s'.files[i].content)| ensures IsHandled(s', i, k) {
        assert IsHandled(s, i, k);
      }
    }
  }

  // ---- the imports of the file found last ---------------------------------

  /** The next import of the file found last is to be looked at. */
  ghost predicate IsImporting(s: Search) {
    s.followed + 1 == |s.files| && |s.depths| == |s.files| && s.level < MAX_IMPORT_DEPTH &&
    s.imported < |Followed(s.w, s.files[s.followed].content)|
  }

  function NextTarget(s: Search): Target
    requires IsImporting(s)
  {
    TargetOf(s.w, s.r, s.files[s.followed], s.imported)
  }

  /** More was seen and placed, nothing that was seen before was placed anew, and the next import was looked at. */
  ghost predicate LooksFurther(s: Search, s': Search) {
    IsImporting(s) && s'.imported == s.imported + 1 && s'.followed == s.followed && s'.current == s.current &&
    s'.w == s.w && s'.r == s.r && s'.files == s.files && s'.depths == s.depths && s'.level == s.level &&
    s.seen <= s'.seen && (forall path :: path in s.seen ==> (path in s'.placed <==> path in s.placed)) &&
    (forall path :: path in s.seen && path in s.placed ==> s'.placed[path] == s.placed[path]) &&
    NextTarget(s).path in s'.seen && (NextTarget(s).path in s'.placed ==> s'.placed[NextTarget(s).path] <= s.level + 1)
  }

  lemma {:induction false} FurtherHandled(s: Search, s': Search)
    requires ImportsFollowed(s) && LooksFurther(s, s')
    ensures ImportsFollowed(s')
  {
    forall i | 0 <= i < s'.followed && !IsBridge(s.w, s.r, i) && s.depths[i] < MAX_IMPORT_DEPTH
      ensures AllHandled(s', i, |Followed(s.w, s.files[i].content)|)
    {
      assert AllHandled(s, i, |Followed(s.w, s.files[i].content)|);
      forall k | 0 <= k < |Followed(s.w, s.files[i].content)| ensures IsHandled(s', i, k) {
        assert IsHandled(s, i, k);
      }
    }
    forall k | 0 <= k < s'.imported ensures IsHandled(s', s.followed, k) {
      if k < s.imported {
        assert IsHandled(s, s.followed, k);
      }
    }
  }

  lemma {:induction false} EarlierIsSeen(s: Search, i: nat, k: nat, path: Path)
    requires IsImporting(s) && ImportsFollowed(s) && Mentions(s.w, s.r, s.files, s.depths, i, k, path)
    requires i < s.followed || (i == s.followed && k < s.imported)
    ensures path in s.seen
  {
    assert IsHandled(s, i, k) by {
      if i < s.followed {
        assert AllHandled(s, i, |Followed(s.w, s.files[i].content)|);
      }
    }
  }

  /** A path that was not seen before is first named by the import that is looked at. */
  lemma {:induction false} UnseenIsFirstNamed(s: Search)
    requires IsImporting(s) && ImportsFollowed(s) && NextTarget(s).path !in s.seen
    ensures IsFirstNamed(s.w, s.r, s.files, s.depths, NextTarget(s).path, NextTarget(s).Inside?)
  {
    var path := NextTarget(s).path;
    assert Mentions(s.w, s.r, s.files, s.depths, s.followed, s.imported, path);
    forall i: nat, k: nat | Mentions(s.w, s.r, s.files, s.depths, i, k, path)
      ensures s.followed < i || (s.followed == i && s.imported <= k)
    {
      if i < s.followed || (i == s.followed && k < s.imported) {
        EarlierIsSeen(s, i, k, path);
      }
    }
    assert IsFirstMention(s.w, s.r, s.files, s.depths, s.followed, s.imported, path);
  }

  /** The import names what was seen. */
  lemma {:induction false} SearchSkipsSeen(s: Searched) returns (s': Searched)
    requires IsImporting(s) && NextTarget(s).path in s.seen
    ensures s' == s.(imported := s.imported + 1)
  {
    var later: Search := s.(imported := s.imported + 1);
    if Still(s.w) {
      KeepsAll(s, later);
      FurtherHandled(s, later);
    }
    s' := later;
  }

  /** Nothing but how far the imports were looked at has changed. */
  lemma {:induction false} KeepsAll(s: Search, s': Search)
    requires FilesFound(s) && QueuePlaced(s) && CandidatesPlaced(s) && RestRefused(s)
    requires s' == s.(imported := s'.imported, followed := s'.followed)
    ensures FilesFound(s') && QueuePlaced(s') && CandidatesPlaced(s') && RestRefused(s')
    ensures forall path :: path in s.placed ==> s.placed[path] <= s.level + 1
  {
    forall path | path in s.placed ensures IsPlaced(s', path) && IsSettled(s', path) && s.placed[path] <= s.level + 1 {
      assert IsPlaced(s, path) && IsSettled(s, path);
    }
    forall path | path in s.seen && path !in s.placed ensures IsRefused(s', path) {
      assert IsRefused(s, path);
    }
    forall i | 0 <= i < |s.files| ensures IsFound(s', i) {
      assert IsFound(s, i);
    }
  }

  /** The import leads outside, or to what may not be collected. */
  lemma {:induction false} SearchRefuses(s: Searched) returns (s': Searched)
    requires IsImporting(s) && NextTarget(s).path !in s.seen
    requires NextTarget(s).Outside? || !s.r.allowed(NextTarget(s).path)
    ensures s' == s.(seen := s.seen + {NextTarget(s).path}, imported := s.imported + 1)
  {
    var named := NextTarget(s).path;
    var later: Search := s.(seen := s.seen + {named}, imported := s.imported + 1);
    if Still(s.w) {
      UnseenIsFirstNamed(s);
      forall path | path in later.placed ensures IsPlaced(later, path) && IsSettled(later, path) {
        assert IsPlaced(s, path) && IsSettled(s, path);
      }
      forall path | path in later.seen && path !in later.placed ensures IsRefused(later, path) {
        if path != named {
          assert IsRefused(s, path);
        }
      }
      forall i | 0 <= i < |s.files| ensures IsFound(later, i) {
        assert IsFound(s, i);
      }
      forall path | path in s.placed ensures path in s.seen {
        assert IsPlaced(s, path);
      }
      FurtherHandled(s, later);
    }
    s' := later;
  }

  /** The import leads to a candidate: it waits at the end of the queue, one level further. */
  lemma {:induction false} SearchPlaces(s: Searched) returns (s': Searched)
    requires IsImporting(s) && NextTarget(s).path !in s.seen && s.head <= |s.queue|
    requires NextTarget(s).Inside? && s.r.allowed(NextTarget(s).path)
    ensures s' == s.(seen := s.seen + {NextTarget(s).path}, queue := s.queue + [Entry(NextTarget(s).path, s.level + 1)],
                     placed := s'.placed, imported := s.imported + 1)
  {
    var named := NextTarget(s).path;
    var later: Search := s.(seen := s.seen + {named}, queue := s.queue + [Entry(named, s.level + 1)],
             placed := s.placed[named := s.level + 1], imported := s.imported + 1);
    if Still(s.w) {
      PlacesCandidates(s, later);
      PlacesBeside(s, later);
    }
    s' := later;
  }

  ghost predicate Places(s: Search, s': Search) {
    IsImporting(s) && NextTarget(s).Inside? &&
    var named := NextTarget(s).path;
    named !in s.seen && s.r.allowed(named) && s.head <= |s.queue| &&
    s' == s.(seen := s.seen + {named}, queue := s.queue + [Entry(named, s.level + 1)],
             placed := s.placed[named := s.level + 1], imported := s.imported + 1)
  }

  lemma {:induction false} PlacesCandidates(s: Search, s': Search)
    requires Places(s, s') && FilesFound(s) && CandidatesPlaced(s) && ImportsFollowed(s)
    ensures CandidatesPlaced(s')
  {
    UnseenIsFirstNamed(s);
    NewIsAway(s);
    forall path | path in s'.placed ensures IsPlaced(s', path) && IsSettled(s', path) {
      PlacesOne(s, s', path);
    }
  }

  lemma {:induction false} PlacesBeside(s: Search, s': Search)
    requires Places(s, s') && FilesFound(s) && QueuePlaced(s) && CandidatesPlaced(s) && RestRefused(s) && ImportsFollowed(s)
    requires StartsPlaced(s)
    ensures FilesFound(s') && QueuePlaced(s') && RestRefused(s') && ImportsFollowed(s') && StartsPlaced(s')
  {
    forall path | path in s.placed ensures path in s.seen && path != NextTarget(s).path {
      assert IsPlaced(s, path);
    }
    forall path | path in s'.seen && path !in s'.placed ensures IsRefused(s', path) {
      assert IsRefused(s, path);
    }
    forall i | 0 <= i < |s.files| ensures IsFound(s', i) {
      assert IsFound(s, i);
    }
    FurtherHandled(s, s');
  }

  /** One import further than the file it is written in. */
  lemma {:induction false} NewIsAway(s: Search)
    requires FilesFound(s) && CandidatesPlaced(s) && ImportsFollowed(s) && IsImporting(s)
    requires NextTarget(s).Inside? && s.r.allowed(NextTarget(s).path)
    ensures IsAway(s.w, s.r, NextTarget(s).path, s.level + 1)
  {
    var file := s.files[s.followed];
    assert IsFound(s, s.followed) && IsPlaced(s, file.path);
    assert IsImport(s.w, s.r, File(file.path, file.content), s.imported, NextTarget(s).path);
    assert Links(s.w, s.r, file.path, NextTarget(s).path);
  }

  lemma {:induction false} PlacesOne(s: Search, s': Search, path: Path)
    requires Places(s, s') && CandidatesPlaced(s) && path in s'.placed
    requires var named := NextTarget(s).path;
             IsAway(s.w, s.r, named, s.level + 1) && IsFirstNamed(s.w, s.r, s.files, s.depths, named, true)
    ensures IsPlaced(s', path) && IsSettled(s', path)
  {
    if path == NextTarget(s).path {
      assert s'.queue[|s.queue|].path == path;
    } else {
      assert IsPlaced(s, path) && IsSettled(s, path);
      if IsWaiting(s.queue, s.head, path) {
        var k :| s.head <= k < |s.queue| && s.queue[k].path == path;
        assert s'.queue[k].path == path;
      }
    }
  }

  /** All imports of the file found last were looked at, or it lies too deep for them. */
  lemma {:induction false} SearchFollowed(s: Searched) returns (s': Searched)
    requires s.followed + 1 == |s.files| == |s.depths|
    requires s.level >= MAX_IMPORT_DEPTH || s.imported == |Followed(s.w, s.files[s.followed].content)|
    ensures s' == s.(followed := |s.files|)
  {
    var later: Search := s.(followed := |s.files|);
    if Still(s.w) {
      KeepsAll(s, later);
      forall i | 0 <= i < later.followed && !IsBridge(s.w, s.r, i) && s.depths[i] < MAX_IMPORT_DEPTH
        ensures AllHandled(later, i, |Followed(s.w, s.files[i].content)|)
      {
        assert AllHandled(s, i, |Followed(s.w, s.files[i].content)|);
        forall k | 0 <= k < |Followed(s.w, s.files[i].content)| ensures IsHandled(later, i, k) {
          assert IsHandled(s, i, k);
        }
      }
    }
    s' := later;
  }

  // ---- where it starts ----------------------------------------------------

  lemma {:induction false} SearchStarts(w: Workspace, r: Rules) returns (s: Searched)
    requires r.allowed(r.root) && r.allowed(r.nested) && (Still(w) ==> !UsesBridge(w, r))
    ensures s == Search(w, r, [], [], [Entry(r.root, 0), Entry(r.nested, 0)], 0, 0, {r.root} + {r.nested}, false,
                        s.placed, None, 0, 0)
  {
    var queue := [Entry(r.root, 0), Entry(r.nested, 0)];
    var first: Search := Search(w, r, [], [], queue, 0, 0, {r.root} + {r.nested}, false, map[r.root := 0, r.nested := 0], None, 0, 0);
    if Still(w) {
      assert queue[0].path == r.root && queue[1].path == r.nested;
      forall path | path in first.placed ensures IsPlaced(first, path) && IsSettled(first, path) {
        assert path == r.root || path == r.nested;
        assert IsAway(w, r, path, 0);
      }
    }
    s := first;
  }

  /** AGENTS.md stands in for the roots: it was read, behind its bridge. */
  lemma {:induction false} SearchBridges(w: Workspace, r: Rules, agents: Text) returns (s: Searched)
    requires r.allowed(r.agents)
    requires Still(w) ==> UsesBridge(w, r) && IsReadableAs(w, r, r.agents, agents)
    ensures s == Search(w, r, [File(r.root, r.bridge), File(r.agents, agents)], [0, 1], [], 0, 1,
                        {r.root} + {r.nested} + {r.agents}, false, s.placed, None, 1, 0)
  {
    var first: Search := Search(w, r, [File(r.root, r.bridge), File(r.agents, agents)], [0, 1], [], 0, 1,
                {r.root} + {r.nested} + {r.agents}, false, map[r.agents := 1], None, 1, 0);
    if Still(w) {
      assert IsAway(w, r, r.agents, 1);
      assert first.files[1].path == r.agents;
      assert IsFound(first, 0) && IsFound(first, 1);
    }
    s := first;
  }

  /** Or it could not be read: there is nothing. */
  lemma {:induction false} SearchEndsEarly(w: Workspace, r: Rules, limited: bool) returns (s: Searched)
    requires r.allowed(r.agents)
    requires Still(w) ==> UsesBridge(w, r) && (limited || !IsReadable(w, r, r.agents))
    ensures s == Search(w, r, [], [], [], 0, 0, {r.root} + {r.nested} + {r.agents}, limited, s.placed, None, 0, 0)
  {
    var first: Search := Search(w, r, [], [], [], 0, 0, {r.root} + {r.nested} + {r.agents}, limited, map[r.agents := 1], None, 0, 0);
    if Still(w) {
      assert IsAway(w, r, r.agents, 1);
    }
    s := first;
  }

  // ---- what was found -----------------------------------------------------

  /** Nothing waits, and all imports were followed. */
  ghost predicate IsOver(s: Search) {
    s.head >= |s.queue| && s.current == None && s.followed == |s.files|
  }

  lemma {:induction false} CollectedIsPlaced(s: Searched, path: Path)
    requires Still(s.w) && IsCollected(s.w, s.r, s.files, path)
    ensures IsReadable(s.w, s.r, path) && IsWithinReach(s.w, s.r, path)
    ensures IsStart(s.w, s.r, path) || IsFirstNamed(s.w, s.r, s.files, s.depths, path, true)
  {
    var i :| 0 <= i < |s.files| && s.files[i].path == path && !IsBridge(s.w, s.r, i);
    assert IsFound(s, i) && IsPlaced(s, path);
  }

  /**
   * What a search that passed no limit has collected: exactly the readable
   * allowed paths that are roots or that the first import naming them leads to.
   */
  lemma {:induction false} FoundIff(s: Searched, path: Path)
    requires Still(s.w) && IsOver(s) && !s.limited && s.r.allowed(path)
    ensures IsCollected(s.w, s.r, s.files, path) <==>
            IsReadable(s.w, s.r, path) &&
            (IsStart(s.w, s.r, path) || IsFirstNamed(s.w, s.r, s.files, s.depths, path, true))
  {
    if IsCollected(s.w, s.r, s.files, path) {
      CollectedIsPlaced(s, path);
    }
    if IsReadable(s.w, s.r, path) && IsFirstNamed(s.w, s.r, s.files, s.depths, path, true) {
      FirstNamedIsPlaced(s, path);
      PlacedIsCollected(s, path);
    }
    if IsReadable(s.w, s.r, path) && IsStart(s.w, s.r, path) {
      PlacedIsCollected(s, path);
    }
  }

  /** A readable candidate of a search that is over and passed no limit was collected. */
  lemma {:induction false} PlacedIsCollected(s: Searched, path: Path)
    requires Still(s.w) && IsOver(s) && !s.limited && path in s.placed && IsReadable(s.w, s.r, path)
    ensures IsCollected(s.w, s.r, s.files, path)
  {
    assert IsSettled(s, path);
  }

  lemma {:induction false} FirstNamedIsPlaced(s: Searched, path: Path)
    requires Still(s.w) && IsOver(s) && s.r.allowed(path) && IsReadable(s.w, s.r, path)
    requires IsFirstNamed(s.w, s.r, s.files, s.depths, path, true)
    ensures path in s.placed
  {
    var i: nat, k: nat :| IsFirstMention(s.w, s.r, s.files, s.depths, i, k, path) && TargetOf(s.w, s.r, s.files[i], k).Inside?;
    assert AllHandled(s, i, |Followed(s.w, s.files[i].content)|) && IsHandled(s, i, k);
    NamedOneWay(s.w, s.r, s.files, s.depths, path);
    assert path in s.placed || IsRefused(s, path);
  }

  /** Where no name leads outside, whatever readable path lies within reach was placed no deeper, and collected. */
  lemma {:induction false} ReachedIsFound(s: Searched, path: Path, d: nat)
    requires Still(s.w) && IsOver(s) && !s.limited && NamesAreClear(s.w, s.r) && s.r.allowed(path)
    requires IsAway(s.w, s.r, path, d) && d <= MAX_IMPORT_DEPTH && IsReadable(s.w, s.r, path)
    ensures path in s.placed && s.placed[path] <= d && IsCollected(s.w, s.r, s.files, path)
    decreases d
  {
    if !(IsStart(s.w, s.r, path) && d == if UsesBridge(s.w, s.r) then 1 else 0) {
      var from, content := LinkTo(s.w, s.r, path, d);
      AwayIsAllowed(s.w, s.r, from, d - 1) by {
        assert StartsPlaced(s);
      }
      ReachedIsFound(s, from, d - 1);
      LinkIsPlaced(s, from, content, path, d);
    }
    PlacedIsCollected(s, path);
  }

  lemma {:induction false} LinkTo(w: Workspace, r: Rules, path: Path, d: nat) returns (from: Path, content: Text)
    requires IsAway(w, r, path, d) && !(IsStart(w, r, path) && d == if UsesBridge(w, r) then 1 else 0)
    ensures d > 0 && IsAway(w, r, from, d - 1) && IsReadableAs(w, r, from, content) && IsReadable(w, r, from)
    ensures Imports(w, r, File(from, content), path)
  {
    from :| IsAway(w, r, from, d - 1) && Links(w, r, from, path);
    content :| IsReadableAs(w, r, from, content) && Imports(w, r, File(from, content), path);
  }

  lemma {:induction false} AwayIsAllowed(w: Workspace, r: Rules, path: Path, d: nat)
    requires IsAway(w, r, path, d) && forall start :: IsStart(w, r, start) ==> r.allowed(start)
    ensures r.allowed(path)
  {
  }

  lemma {:induction false} LinkIsPlaced(s: Searched, from: Path, content: Text, path: Path, d: nat)
    requires Still(s.w) && IsOver(s) && NamesAreClear(s.w, s.r) && 0 < d <= MAX_IMPORT_DEPTH
    requires IsReadableAs(s.w, s.r, from, content) && Imports(s.w, s.r, File(from, content), path)
    requires s.r.allowed(path) && IsReadable(s.w, s.r, path)
    requires from in s.placed && s.placed[from] <= d - 1 && IsCollected(s.w, s.r, s.files, from)
    ensures path in s.placed && s.placed[path] <= d
  {
    var i :| 0 <= i < |s.files| && s.files[i].path == from && !IsBridge(s.w, s.r, i);
    assert IsFound(s, i) && s.files[i] == File(from, content);
    var k: nat :| IsImport(s.w, s.r, File(from, content), k, path);
    assert AllHandled(s, i, |Followed(s.w, s.files[i].content)|) && IsHandled(s, i, k);
    ClearIsNotOutside(s, path);
    assert path in s.placed || IsRefused(s, path);
  }

  lemma {:induction false} ClearIsNotOutside(s: Search, path: Path)
    requires FilesFound(s) && NamesAreClear(s.w, s.r) && s.r.allowed(path)
    ensures !IsFirstNamed(s.w, s.r, s.files, s.depths, path, false)
  {
    forall j: nat, l: nat | Mentions(s.w, s.r, s.files, s.depths, j, l, path) ensures TargetOf(s.w, s.r, s.files[j], l).Inside? {
      assert IsFound(s, j);
      var file := s.files[j];
      assert file == File(file.path, file.content) && !NamesOutside(s.w, s.r, File(file.path, file.content), l);
    }
  }

  lemma {:induction false} ReachableIsFound(s: Searched, path: Path)
    requires Still(s.w) && IsOver(s) && !s.limited && NamesAreClear(s.w, s.r) && s.r.allowed(path)
    requires IsReadable(s.w, s.r, path) && IsWithinReach(s.w, s.r, path)
    ensures IsCollected(s.w, s.r, s.files, path)
  {
    var d: nat :| d <= 5 && IsAway(s.w, s.r, path, d);
    ReachedIsFound(s, path, d);
  }

  /** Then it has collected exactly the readable allowed paths that are at most five imports away from a root. */
  lemma {:induction false} FoundIffWithinReach(s: Searched, path: Path)
    requires Still(s.w) && IsOver(s) && !s.limited && NamesAreClear(s.w, s.r) && s.r.allowed(path)
    ensures IsCollected(s.w, s.r, s.files, path) <==>
            IsReadable(s.w, s.r, path) && IsWithinReach(s.w, s.r, path)
  {
    if IsCollected(s.w, s.r, s.files, path) {
      CollectedIsPlaced(s, path);
    }
    if IsReadable(s.w, s.r, path) && IsWithinReach(s.w, s.r, path) {
      ReachableIsFound(s, path);
    }
  }

  /** A file of this path is among them. */
  ghost predicate HasFile(files: seq<File>, path: Path) {
    exists i :: 0 <= i < |files| && files[i].path == path
  }

  /** What was seen is accounted for: nothing that may be collected and can be read was left out. */
  ghost predicate SeenIsCollected(w: Workspace, r: Rules, files: seq<File>, seen: set<Path>, limited: bool) {
    Still(w) && NamesAreClear(w, r) && !limited ==>
      forall path :: path in seen && r.allowed(path) && IsReadable(w, r, path) ==> HasFile(files, path)
  }

  lemma {:induction false} SeenWasCollected(s: Searched)
    requires IsOver(s)
    ensures SeenIsCollected(s.w, s.r, s.files, s.seen, s.limited)
  {
    if Still(s.w) && NamesAreClear(s.w, s.r) && !s.limited {
      forall path | path in s.seen && s.r.allowed(path) && IsReadable(s.w, s.r, path)
        ensures HasFile(s.files, path)
      {
        ClearIsNotOutside(s, path);
        assert path in s.placed || IsRefused(s, path);
        PlacedIsCollected(s, path);
      }
    }
  }

  /** One file more, and with it one path seen. */
  lemma {:induction false} SeenAndCollected(w: Workspace, r: Rules, files: seq<File>, files': seq<File>, seen: set<Path>,
                                            path: Path, limited: bool, limited': bool)
    requires SeenIsCollected(w, r, files, seen, limited) && files <= files' && (limited ==> limited')
    requires Still(w) && !limited' && r.allowed(path) && IsReadable(w, r, path) ==> HasFile(files', path)
    ensures SeenIsCollected(w, r, files', seen + {path}, limited')
  {
    forall p | HasFile(files, p) ensures HasFile(files', p) {
      var i :| 0 <= i < |files| && files[i].path == p;
      assert files'[i].path == p;
    }
  }

  /**
   * What is collected of a repository's instructions: exactly the readable
   * allowed paths that are roots or that the first import naming them leads to;
   * and, where no import names outside what may be collected, exactly those at
   * most five imports away from a root.
   */
  ghost predicate FindsInstructions(w: Workspace, r: Rules, files: seq<File>, depths: seq<nat>) {
    forall path :: r.allowed(path) ==>
      (IsCollected(w, r, files, path) <==>
       IsReadable(w, r, path) && (IsStart(w, r, path) || IsFirstNamed(w, r, files, depths, path, true))) &&
      (NamesAreClear(w, r) ==>
       (IsCollected(w, r, files, path) <==> IsReadable(w, r, path) && IsWithinReach(w, r, path)))
  }

  lemma {:induction false} SearchFindsInstructions(s: Searched)
    requires Still(s.w) && IsOver(s) && !s.limited
    ensures FindsInstructions(s.w, s.r, s.files, s.depths)
  {
    forall path | s.r.allowed(path)
      ensures IsCollected(s.w, s.r, s.files, path) <==>
              IsReadable(s.w, s.r, path) &&
              (IsStart(s.w, s.r, path) || IsFirstNamed(s.w, s.r, s.files, s.depths, path, true))
      ensures NamesAreClear(s.w, s.r) ==>
                (IsCollected(s.w, s.r, s.files, path) <==> IsReadable(s.w, s.r, path) && IsWithinReach(s.w, s.r, path))
    {
      FoundIff(s, path);
      if NamesAreClear(s.w, s.r) {
        FoundIffWithinReach(s, path);
      }
    }
  }
}
