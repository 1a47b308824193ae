/** Which paths a repository's context may come from (src/coding/protocol.ts), by their segments. */
module ContextPaths {

  type Path = string

  /** The parts between slashes. */
  function Segments(path: Path): (segments: seq<string>)
    ensures segments != []
  {
    if path == "" then [""]
    else
      var last, rest := path[|path| - 1], Segments(path[..|path| - 1]);
      if last == '/' then rest + [""] else rest[|rest| - 1 := rest[|rest| - 1] + [last]]
  }

  predicate IsSegment(s: string) {
    forall i :: 0 <= i < |s| ==> s[i] != '/'
  }

  /** A part after a slash is the last segment. */
  lemma {:induction false} LastSegment(path: Path, last: string)
    requires IsSegment(last)
    ensures Segments(path + "/" + last) == Segments(path) + [last]
    decreases |last|
  {
    var whole := path + "/" + last;
    if last == "" {
      assert whole[..|whole| - 1] == path;
    } else {
      var shorter := last[..|last| - 1];
      LastSegment(path, shorter);
      assert whole[..|whole| - 1] == path + "/" + shorter;
      assert shorter + [last[|last| - 1]] == last;
    }
  }

  lemma {:induction false} OneSegment(s: string)
    requires IsSegment(s)
    ensures Segments(s) == [s]
    decreases |s|
  {
    if s != "" {
      OneSegment(s[..|s| - 1]);
      assert s[..|s| - 1] + [s[|s| - 1]] == s;
    }
  }

  function Lower(s: string): (lower: string)
    ensures |lower| == |s|
  {
    if s == "" then "" else Lower(s[..|s| - 1]) + [LowerChar(s[|s| - 1])]
  }

  function LowerChar(c: char): char {
    if 'A' <= c <= 'Z' then (c as int - 'A' as int + 'a' as int) as char else c
  }

  predicate IsControl(c: char) {
    c as int <= 0x1F || 0x7F <= c as int <= 0x9F
  }

  /** A repo-relative path with no empty, "." or ".." segment, no backslash or control character, and not under .git. */
  predicate IsSafe(path: Path) {
    0 < |path| <= 512 && path[0] != '/' && (forall i :: 0 <= i < |path| ==> path[i] != '\\' && !IsControl(path[i])) &&
    (forall i :: 0 <= i < |Segments(path)| ==> Segments(path)[i] !in {"", ".", ".."}) && Segments(path)[0] != ".git"
  }

  predicate IsSkillPath(path: Path) {
    var s := Segments(path);
    |s| == 4 && s[0] == ".claude" && s[1] == "skills" && s[2] != "" && s[3] == "SKILL.md"
  }

  predicate IsNamed(path: Path) {
    path in {"CLAUDE.md", ".claude/CLAUDE.md", "AGENTS.md"}
  }

  predicate IsMarkdown(path: Path) {
    |path| >= 3 && path[|path| - 3..] == ".md"
  }

  /** Whether a context file may be shipped to the worker. */
  predicate IsAllowed(path: Path) {
    IsSafe(path) &&
    (IsNamed(path) || IsSkillPath(path) ||
     (IsMarkdown(path) && (forall i :: 0 <= i < |Segments(path)| ==> Lower(Segments(path)[i]) != ".claude") &&
      Lower(Segments(path)[|Segments(path)| - 1]) != "claude.local.md"))
  }
}

/** What the rules keep out. */
module ContextPathLaws {
  import opened ContextPaths

  lemma {:induction false} NamedSegments(path: Path)
    requires IsNamed(path)
    ensures path == ".claude/CLAUDE.md" || Segments(path) == [path]
    ensures |Segments(path)[|Segments(path)| - 1]| == 9
  {
    if path == ".claude/CLAUDE.md" {
      LastSegment(".claude", "CLAUDE.md");
      assert ".claude" + "/" + "CLAUDE.md" == path;
    } else {
      OneSegment(path);
    }
  }

  /**
   * Inside any .claude directory, however its name is cased, only the root file
   * and the skills are allowed: no settings, hooks, agents or commands. And a
   * personal CLAUDE.local.md is allowed nowhere.
   */
  lemma {:induction false} OnlySharedInstructions(path: Path, i: nat)
    requires IsAllowed(path) && i < |Segments(path)|
    ensures Lower(Segments(path)[i]) == ".claude" ==> path == ".claude/CLAUDE.md" || IsSkillPath(path)
    ensures Lower(Segments(path)[|Segments(path)| - 1]) != "claude.local.md"
  {
    if IsNamed(path) {
      NamedSegments(path);
      if path != ".claude/CLAUDE.md" {
        assert |Lower(Segments(path)[i])| == 9;
      }
    }
  }
}

/** What the rules let in. */
module SkillPaths {
  import opened ContextPaths

  predicate IsPlainName(name: string) {
    name !in {"", ".", ".."} && |name| <= 400 &&
    forall i :: 0 <= i < |name| ==> name[i] != '/' && name[i] != '\\' && !IsControl(name[i])
  }

  function PathOf(name: string): Path {
    ".claude/skills/" + name + "/SKILL.md"
  }

  lemma {:induction false} SkillSegments(name: string)
    requires IsPlainName(name)
    ensures Segments(PathOf(name)) == [".claude", "skills", name, "SKILL.md"]
  {
    OneSegment(".claude");
    LastSegment(".claude", "skills");
    LastSegment(".claude" + "/" + "skills", name);
    LastSegment(".claude" + "/" + "skills" + "/" + name, "SKILL.md");
    assert PathOf(name) == ".claude" + "/" + "skills" + "/" + name + "/" + "SKILL.md";
  }

  lemma {:induction false} SkillCharacters(name: string, i: nat)
    requires IsPlainName(name) && i < |PathOf(name)|
    ensures PathOf(name)[i] != '\\' && !IsControl(PathOf(name)[i])
  {
    assert PathOf(name)[i] ==
           if i < 15 then ".claude/skills/"[i] else if i < 15 + |name| then name[i - 15] else "/SKILL.md"[i - 15 - |name|];
  }

  /** The file of every skill with a plain name may be collected. */
  lemma {:induction false} SkillsAreAllowed(name: string)
    requires IsPlainName(name)
    ensures IsAllowed(PathOf(name))
  {
    SkillSegments(name);
    forall i | 0 <= i < |PathOf(name)| ensures PathOf(name)[i] != '\\' && !IsControl(PathOf(name)[i]) {
      SkillCharacters(name, i);
    }
  }
}

/** The collector of a repository's own instructions (buildClaudeContext in src/coding/claude-context.ts). */
module ContextCollector {
  import opened Common
  import opened JsonScan
  import opened TextMeasures
  import opened ContextPaths
  import opened Utf8

  const MAX_FILES := 200
  const MAX_FILE_BYTES := 65536
  const MAX_TOTAL_BYTES := 262144
  const MAX_IMPORT_DEPTH := 5
  const MAX_IMPORTS_PER_FILE := 100
  const MAX_RECORDED_SKIPS := 50

  datatype File = File(path: Path, content: Text)

  /** A path waiting to be loaded, so many imports away from a root. */
  datatype Entry = Entry(path: Path, depth: nat)

  /** What the file system itself can refuse. */
  datatype Obstacle = Symlink | NotFile | TooLarge

  datatype Reason = Blocked(obstacle: Obstacle) | NotUtf8 | Limit | OutsideRepo | NotAllowed

  datatype Skip = Skip(path: Path, reason: Reason)

  datatype Inspection = Absent | Refused(obstacle: Obstacle) | Regular(size: nat)

  /** What opening and reading a file gives: its bytes, however many there are by then. */
  datatype Reading = Gone | Unreadable(obstacle: Obstacle) | Opened(bytes: Bytes)

  /** Where an import leads: a safe path, or what is reported for it. */
  datatype Target = Inside(path: Path) | Outside(path: Path)

  datatype Skills = Skills(names: seq<string>, truncated: bool, refused: bool)

  /** The repository as it is found: what each look at a path finds, which may change from look to look. */
  datatype Workspace = Workspace(
    inspect: (nat, Path) -> Inspection,
    read: (nat, Path) -> Reading,
    imports: Text -> seq<string>,
    normalize: (Path, string) -> Path,
    skills: Skills)

  /**
   * Which paths are safe, which of those may be collected, how bytes are decoded,
   * how long a content is, and where an import leads; the two roots, the file used
   * without them, and the bridge that imports it.
   */
  datatype Rules = Rules(safe: Path -> bool, allowed: Path -> bool, decode: Bytes -> Option<Text>, bytes: Text -> nat,
                         resolve: (Path, string) -> Target,
                         root: Path, nested: Path, agents: Path, bridge: Text)

  /** Decoding never lengthens. */
  ghost predicate DecodesShort(r: Rules) {
    forall bytes :: r.decode(bytes).Some? ==> r.bytes(r.decode(bytes).value) <= |bytes|
  }

  function Resolve(w: Workspace, importer: Path, target: string): Target {
    if target != "" && (target[0] == '~' || target[0] == '/') then Outside(target)
    else
      var resolved := w.normalize(importer, target);
      if resolved == ".." || (|resolved| >= 3 && resolved[..3] == "../") then Outside(target)
      else if !IsSafe(resolved) then Outside(resolved)
      else Inside(resolved)
  }

  const ROOTS: seq<Path> := ["CLAUDE.md", ".claude/CLAUDE.md"]
  const AGENTS: Path := "AGENTS.md"

  /** "@AGENTS.md" and a line feed. */
  const AGENTS_BRIDGE: Text := [0x40, 0x41, 0x47, 0x45, 0x4E, 0x54, 0x53, 0x2E, 0x6D, 0x64, 0x0A]

  /** The bytes of the first k files. */
  function BytesOf(r: Rules, files: seq<File>, k: nat): nat
    requires k <= |files|
  {
    if k == 0 then 0 else BytesOf(r, files, k - 1) + r.bytes(files[k - 1].content)
  }

  lemma {:induction false} BytesOfEarlier(r: Rules, files: seq<File>, file: File, k: nat)
    requires k <= |files|
    ensures BytesOf(r, files + [file], k) == BytesOf(r, files, k)
    decreases k
  {
    if k > 0 {
      BytesOfEarlier(r, files, file, k - 1);
    }
  }

  /** The imports that are followed: the first hundred. */
  function Followed(w: Workspace, content: Text): (followed: seq<string>)
    ensures followed <= w.imports(content) && |followed| == Min(100, |w.imports(content)|)
  {
    var targets := w.imports(content);
    if |targets| > MAX_IMPORTS_PER_FILE then targets[..MAX_IMPORTS_PER_FILE] else targets
  }

  // ---- what a collection satisfies ----------------------------------------

  /** The worker's input schema, and the rule for paths: few enough, small enough, each path once, all allowed. */
  ghost predicate MeetsSchema(r: Rules, files: seq<File>) {
    |files| <= 200 && BytesOf(r, files, |files|) <= 262144 &&
    (forall i :: 0 <= i < |files| ==> r.bytes(files[i].content) <= 65536 && r.allowed(files[i].path)) &&
    forall i, j :: 0 <= i < j < |files| ==> files[i].path != files[j].path
  }

  /** The k-th import followed in this file leads to this path. */
  ghost predicate IsImport(w: Workspace, r: Rules, file: File, k: nat, path: Path) {
    k < |Followed(w, file.content)| && r.resolve(file.path, Followed(w, file.content)[k]) == Inside(path)
  }

  ghost predicate Imports(w: Workspace, r: Rules, file: File, path: Path) {
    exists k: nat :: IsImport(w, r, file, k, path)
  }

  /** Where collection starts, and which file leads to which path. */
  datatype Graph = Graph(start: Path -> bool, step: (File, Path) -> bool)

  /** The graph of a repository: the two roots, the imports, and the bridge's import of AGENTS.md. */
  ghost predicate IsGraphOf(w: Workspace, r: Rules, g: Graph) {
    (forall path :: g.start(path) <==> path == r.root || path == r.nested) &&
    (forall file, path :: g.step(file, path) <==>
       Imports(w, r, file, path) || (file == File(r.root, r.bridge) && path == r.agents))
  }

  /** These files lead to the path in d steps. */
  ghost predicate IsReached(g: Graph, files: seq<File>, path: Path, d: nat)
    decreases d, 1
  {
    if d == 0 then g.start(path) else exists i :: 0 <= i < |files| && LeadsTo(g, files, files[i], path, d)
  }

  ghost predicate LeadsTo(g: Graph, files: seq<File>, file: File, path: Path, d: nat)
    requires d > 0
    decreases d, 0
  {
    g.step(file, path) && IsReached(g, files, file.path, d - 1)
  }

  lemma {:induction false} StillReached(g: Graph, files: seq<File>, file: File, path: Path, d: nat)
    requires IsReached(g, files, path, d)
    ensures IsReached(g, files + [file], path, d)
    decreases d
  {
    if d > 0 {
      var i :| 0 <= i < |files| && LeadsTo(g, files, files[i], path, d);
      StillReached(g, files, file, files[i].path, d - 1);
      assert (files + [file])[i] == files[i];
    }
  }

  lemma {:induction false} BridgeBytes()
    ensures ByteLength(AGENTS_BRIDGE) == 11
  {
    var b := AGENTS_BRIDGE;
    assert BytesTo(b, 3) == 3;
    assert BytesTo(b, 6) == 6;
    assert BytesTo(b, 9) == 9;
  }

  predicate IsPlain(s: string) {
    forall i :: 0 <= i < |s| ==> s[i] != '\\' && !IsControl(s[i]) && s[i] != '/'
  }

  lemma {:induction false} NamedFileAllowed(s: string)
    requires s == ROOTS[0] || s == AGENTS
    ensures IsAllowed(s)
  {
    assert IsPlain("CLAUDE.md") && IsPlain("AGENTS.md");
    OneSegment(s);
  }

  lemma {:induction false} NestedFileAllowed()
    ensures IsAllowed(ROOTS[1])
  {
    var path := ".claude" + "/" + "CLAUDE.md";
    assert path == ROOTS[1];
    assert IsPlain(".claude") && IsPlain("CLAUDE.md");
    OneSegment(".claude");
    LastSegment(".claude", "CLAUDE.md");
    assert Segments(path) == [".claude", "CLAUDE.md"];
    forall i | 0 <= i < |path| ensures path[i] != '\\' && !IsControl(path[i]) {
      assert path[i] == if i < 7 then ".claude"[i] else if i == 7 then '/' else "CLAUDE.md"[i - 8];
    }
  }
}
