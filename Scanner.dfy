/**
 * The reality scanner (librarian2/scanner.py): the records of one scan and the
 * pure logic that turns the answers of git, of the health endpoints and of the
 * filesystem into them. The subprocess, the HTTP request, the clock and the
 * database readers are parameters: oracles standing for the outside world.
 */
module Scanner {
  import opened Wrappers
  import opened Text
  import opened Dicts
  import Config

  // ─── Records ────────────────────────────────────────────────────────────────

  datatype GitState = GitState(
    repoName: string,
    repoPath: string,
    available: bool,
    headCommit: Option<string>,
    branch: Option<string>,
    untracked: seq<string>,
    modified: seq<string>,
    staged: seq<string>,
    aheadBehind: Option<string>,
    error: Option<string>)

  /** A repository that could not be read has no head and says why (a non-empty error). */
  predicate GitStateValid(g: GitState) {
    (!g.available ==> g.headCommit.None? && g.error.Some? && g.error.value != "")
    && (g.available ==> g.headCommit.Some? && g.error.None?)
  }

  /** A decoded JSON value, as far as the briefing looks at it. `JOther` stands for
    * floats, lists and objects: their `str()` text and their truthiness. */
  datatype JsonValue = JNull | JBool(b: bool) | JInt(i: int) | JString(s: string)
                     | JOther(text: string, truthy: bool)

  /** Python truthiness of a decoded value. */
  predicate Truthy(v: JsonValue) {
    match v
    case JNull => false
    case JBool(b) => b
    case JInt(i) => i != 0
    case JString(s) => s != ""
    case JOther(_, t) => t
  }

  /** `str(v)` of a decoded value. */
  function ShowJson(v: JsonValue): string {
    match v
    case JNull => "None"
    case JBool(b) => if b then "True" else "False"
    case JInt(i) => IntToString(i)
    case JString(s) => s
    case JOther(t, _) => t
  }

  /** What `resp.json()` returned: a JSON object, or some other JSON value. */
  datatype HealthBody = JsonObject(fields: Dict<JsonValue>) | JsonNonObject(value: JsonValue)

  /** The outcome of one GET, after redirects: a response (any status code, with
    * the reason phrase the server sent), or the text of the exception raised by
    * the client (connection error, timeout, ...). `body` is `None` when the
    * response is not JSON. */
  datatype HttpOutcome =
    | Response(statusCode: int, reason: string, elapsedTenthsMs: nat, body: Option<HealthBody>)
    | Raised(message: string)

  /** Whether urllib accepts a final status without raising `HTTPError`. */
  predicate UrllibAccepts(code: int) {
    200 <= code < 300
  }

  /** `str()` of the `HTTPError` urllib raises for any other status. */
  function HttpErrorText(code: int, reason: string): (t: string)
    ensures StartsWith(t, "HTTP Error ")
  {
    "HTTP Error " + IntToString(code) + ": " + reason
  }

  datatype ServiceState = ServiceState(
    name: string,
    url: string,
    reachable: bool,
    statusCode: Option<int>,
    responseTenthsMs: Option<nat>,
    version: Option<JsonValue>,
    healthDetail: Option<HealthBody>,
    error: Option<string>)

  /** A service is reachable exactly when it answered with a status code, and an
    * unreachable one always carries an error text. */
  predicate ServiceStateValid(s: ServiceState) {
    (s.reachable <==> s.statusCode.Some?)
    && (s.reachable ==> s.responseTenthsMs.Some? && s.error.None?)
    && (!s.reachable ==> s.error.Some? && s.version.None?)
  }

  /** The knowledge-base store summary; its SQL is not part of this model. */
  datatype LibrarianState = LibrarianState(
    dbPath: string,
    readable: bool,
    totalGuidance: int,
    currentFocusCount: int,
    essenceCount: int,
    recentHandoff: Option<string>,
    embeddingCoverageTenthsPct: nat,
    error: Option<string>)

  /** The pattern store summary; its SQL is not part of this model. */
  datatype SapphireState = SapphireState(
    dbPath: string,
    readable: bool,
    routingObservations: int,
    detectedPatterns: int,
    unappliedPatterns: int,
    recentObservation: Option<string>,
    error: Option<string>)

  datatype RealitySnapshot = RealitySnapshot(
    scannedAt: string,
    scanDurationTenthsMs: nat,
    git: Dict<GitState>,
    services: Dict<ServiceState>,
    librarian: LibrarianState,
    sapphire: SapphireState,
    filesystem: Dict<bool>)

  // ─── Git probing ────────────────────────────────────────────────────────────

  /** Runs `git <args>` in a directory: stdout when the exit code is 0, `None` on a
    * non-zero exit or when the process could not be run. */
  type GitRunner = (string, seq<string>) -> Option<string>

  /** `_git`: the runner's stdout, stripped. */
  function Git(run: GitRunner, cwd: string, args: seq<string>): (r: Option<string>)
    ensures r.Some? <==> run(cwd, args).Some?
    ensures r.Some? ==> r.value == Strip(run(cwd, args).value)
  {
    match run(cwd, args)
    case None => None
    case Some(out) => Some(Strip(out))
  }

  const HEAD_ARGS: seq<string> := ["rev-parse", "--short", "HEAD"]
  const BRANCH_ARGS: seq<string> := ["rev-parse", "--abbrev-ref", "HEAD"]
  const STATUS_ARGS: seq<string> := ["status", "--porcelain"]

  /** `f"{branch}"`: Python renders a missing branch as "None". */
  function BranchText(branch: Option<string>): string {
    match branch
    case Some(b) => b
    case None => "None"
  }

  function AheadBehindArgs(branch: Option<string>): seq<string> {
    ["rev-list", "--left-right", "--count", BranchText(branch) + "...origin/" + BranchText(branch)]
  }

  /** The class of one porcelain status line. */
  datatype LineKind = Skipped | UntrackedLine | ModifiedLine | StagedLine | UnchangedLine

  /** Lines under two characters are skipped; "??" is untracked; otherwise a
    * non-space second column means modified, else a non-space first column
    * means staged, and a line with both columns blank goes nowhere. */
  function KindOf(line: string): (k: LineKind)
    ensures k == Skipped <==> |line| < 2
    ensures k == UntrackedLine <==> |line| >= 2 && line[0] == '?' && line[1] == '?'
    ensures k == ModifiedLine <==> |line| >= 2 && !(line[0] == '?' && line[1] == '?') && line[1] != ' '
    ensures k == StagedLine <==> |line| >= 2 && line[1] == ' ' && line[0] != ' '
    ensures k == UnchangedLine <==> |line| >= 2 && line[0] == ' ' && line[1] == ' '
  {
    if |line| < 2 then Skipped
    else if line[0] == '?' && line[1] == '?' then UntrackedLine
    else if line[1] != ' ' then ModifiedLine
    else if line[0] != ' ' then StagedLine
    else UnchangedLine
  }

  /** `line[3:].strip()`: what follows the two status columns and the separator,
    * without surrounding whitespace. */
  function FileName(line: string): (r: string)
    ensures r == [] || (|r| + 3 <= |line| && !IsSpace(r[0]) && !IsSpace(r[|r| - 1]))
  {
    StripTrims(Drop(line, 3));
    Strip(Drop(line, 3))
  }

  /** The names each line contributes, collected in order. */
  function Collect(lines: seq<string>, pick: string -> seq<string>): seq<string> {
    if lines == [] then [] else Collect(lines[..|lines| - 1], pick) + pick(lines[|lines| - 1])
  }

  lemma {:induction false} CollectAppend(a: seq<string>, b: seq<string>, pick: string -> seq<string>)
    ensures Collect(a + b, pick) == Collect(a, pick) + Collect(b, pick)
    decreases |b|
  {
    if b == [] {
      assert a + b == a;
    } else {
      assert (a + b)[..|a + b| - 1] == a + b[..|b| - 1];
      CollectAppend(a, b[..|b| - 1], pick);
    }
  }

  /** A line's file name when the line is of the given kind. */
  function Picker(kind: LineKind): string -> seq<string> {
    line => if KindOf(line) == kind then [FileName(line)] else []
  }

  /** The file names of the lines of one kind, in order. */
  function NamesOfKind(lines: seq<string>, kind: LineKind): seq<string> {
    Collect(lines, Picker(kind))
  }

  function CountOfKind(lines: seq<string>, kind: LineKind): nat {
    if lines == [] then 0
    else CountOfKind(lines[..|lines| - 1], kind) + (if KindOf(lines[|lines| - 1]) == kind then 1 else 0)
  }

  /** Each list receives one name per line of its kind. */
  lemma {:induction false} NamesOfKindCount(lines: seq<string>, kind: LineKind)
    ensures |NamesOfKind(lines, kind)| == CountOfKind(lines, kind)
  {
    if lines != [] {
      NamesOfKindCount(lines[..|lines| - 1], kind);
    }
  }

  /** Each line lands in at most one of the three lists. */
  lemma {:induction false} ListsPartitionLines(lines: seq<string>)
    ensures |NamesOfKind(lines, UntrackedLine)| + |NamesOfKind(lines, ModifiedLine)|
            + |NamesOfKind(lines, StagedLine)| + CountOfKind(lines, Skipped)
            + CountOfKind(lines, UnchangedLine) == |lines|
  {
    NamesOfKindCount(lines, UntrackedLine);
    NamesOfKindCount(lines, ModifiedLine);
    NamesOfKindCount(lines, StagedLine);
    KindCountsSum(lines);
  }

  lemma {:induction false} KindCountsSum(lines: seq<string>)
    ensures CountOfKind(lines, UntrackedLine) + CountOfKind(lines, ModifiedLine)
            + CountOfKind(lines, StagedLine) + CountOfKind(lines, Skipped)
            + CountOfKind(lines, UnchangedLine) == |lines|
  {
    if lines != [] {
      KindCountsSum(lines[..|lines| - 1]);
    }
  }

  /** The status lines as `scan_repo` reads them: `_git` strips the whole output,
    * and an empty (falsy) output yields no lines. The first line therefore never
    * starts with a blank, even when git printed a blank first status column. */
  function StatusLinesAsWritten(raw: Option<string>): (r: seq<string>)
    ensures raw.None? ==> r == []
    ensures forall k :: 0 <= k < |r| ==> NoLineBreak(r[k])
    ensures r != [] ==> r[0] != [] && !IsSpace(r[0][0])
  {
    match raw
    case None => []
    case Some(out) =>
      var stripped := Strip(out);
      StripTrims(out);
      if stripped == "" then [] else SplitLines(stripped)
  }

  /** The status lines read without stripping the output first, so that the
    * first line keeps its leading status column. */
  function StatusLines(raw: Option<string>): (r: seq<string>)
    ensures raw.None? ==> r == []
    ensures forall k :: 0 <= k < |r| ==> NoLineBreak(r[k])
  {
    match raw
    case None => []
    case Some(out) => SplitLines(out)
  }

  /** One entry of `git status --porcelain` (version 1): two status columns and a path. */
  datatype PorcelainEntry = PorcelainEntry(x: char, y: char, path: string)

  /** An entry git can print: status columns that are not line breaks, and a
    * non-empty path without line breaks or surrounding whitespace. */
  predicate EntryPrintable(e: PorcelainEntry) {
    !IsLineBreak(e.x) && !IsLineBreak(e.y) && e.path != [] && NoLineBreak(e.path)
    && !IsSpace(e.path[0]) && !IsSpace(e.path[|e.path| - 1])
  }

  function EntryLine(e: PorcelainEntry): string {
    [e.x, e.y, ' '] + e.path
  }

  /** What git writes to stdout for a list of entries. */
  function PorcelainText(es: seq<PorcelainEntry>): string {
    if es == [] then "" else EntryLine(es[0]) + "\n" + PorcelainText(es[1..])
  }

  /** The class an entry's two status columns give it. */
  function EntryKind(e: PorcelainEntry): LineKind {
    KindOf([e.x, e.y])
  }

  /** The paths of the entries of one kind, in order. */
  function PathsOfKind(es: seq<PorcelainEntry>, kind: LineKind): seq<string> {
    if es == [] then []
    else (if EntryKind(es[0]) == kind then [es[0].path] else []) + PathsOfKind(es[1..], kind)
  }

  lemma NamesOfKindCons(line: string, rest: seq<string>, kind: LineKind)
    ensures NamesOfKind([line] + rest, kind)
            == (if KindOf(line) == kind then [FileName(line)] else []) + NamesOfKind(rest, kind)
  {
    NamesOfKindAppend([line], rest, kind);
    NamesOfSingle(line, kind);
  }

  lemma NamesOfKindAppend(a: seq<string>, b: seq<string>, kind: LineKind)
    ensures NamesOfKind(a + b, kind) == NamesOfKind(a, kind) + NamesOfKind(b, kind)
  {
    CollectAppend(a, b, Picker(kind));
  }

  lemma EntryLineParses(e: PorcelainEntry)
    requires EntryPrintable(e)
    ensures NoLineBreak(EntryLine(e))
    ensures KindOf(EntryLine(e)) == EntryKind(e)
    ensures FileName(EntryLine(e)) == e.path
  {
    var line := EntryLine(e);
    assert Drop(line, 3) == e.path;
    StripUnchanged(e.path);
  }

  lemma StripUnchanged(s: string)
    requires s != [] && !IsSpace(s[0]) && !IsSpace(s[|s| - 1])
    ensures Strip(s) == s
  {
  }

  /** Reading git's output unstripped classifies every entry by its own status
    * columns and recovers its path. */
  lemma {:induction false} StatusRoundTrip(es: seq<PorcelainEntry>, kind: LineKind)
    requires forall i :: 0 <= i < |es| ==> EntryPrintable(es[i])
    requires kind != Skipped
    ensures NamesOfKind(StatusLines(Some(PorcelainText(es))), kind) == PathsOfKind(es, kind)
  {
    if es != [] {
      EntryNames(es[0], PorcelainText(es[1..]), kind);
      StatusRoundTrip(es[1..], kind);
    }
  }

  /** The first line of the output is the first entry, read back with its kind and path. */
  lemma EntryNames(e: PorcelainEntry, rest: string, kind: LineKind)
    requires EntryPrintable(e)
    ensures NamesOfKind(SplitLines(EntryLine(e) + "\n" + rest), kind)
            == (if EntryKind(e) == kind then [e.path] else []) + NamesOfKind(SplitLines(rest), kind)
  {
    EntryLineParses(e);
    SplitLinesCons(EntryLine(e), rest);
    NamesOfKindCons(EntryLine(e), SplitLines(rest), kind);
  }

  /** The stripped reading misreads a file modified only in the work tree when
    * it is the first line of the output: it lands in `staged`, and its name
    * loses its first character (" M a.py" gives staged ".py"). Read unstripped,
    * the same output gives modified `p`. */
  lemma StatusAsWrittenMisreadsFirstLine(p: string)
    requires |p| >= 2 && NoLineBreak(p) && !IsSpace(p[0]) && !IsSpace(p[1]) && !IsSpace(p[|p| - 1])
    ensures var raw := Some(PorcelainText([PorcelainEntry(' ', 'M', p)]));
            && NamesOfKind(StatusLinesAsWritten(raw), StagedLine) == [p[1..]]
            && NamesOfKind(StatusLinesAsWritten(raw), ModifiedLine) == []
            && NamesOfKind(StatusLines(raw), ModifiedLine) == [p]
            && NamesOfKind(StatusLines(raw), StagedLine) == []
  {
    AsWrittenSingleLine(p);
    MisreadLineNames(p);
    CorrectedSingleLine(p);
  }

  /** The line "M p" is a staged entry whose name has lost the first character of `p`. */
  lemma MisreadLineNames(p: string)
    requires |p| >= 2 && !IsSpace(p[1]) && !IsSpace(p[|p| - 1])
    ensures NamesOfKind(["M " + p], StagedLine) == [p[1..]]
    ensures NamesOfKind(["M " + p], ModifiedLine) == []
  {
    var line := "M " + p;
    assert KindOf(line) == StagedLine;
    assert FileName(line) == p[1..] by {
      assert Drop(line, 3) == p[1..];
      StripUnchanged(p[1..]);
    }
    NamesOfSingle(line, StagedLine);
    NamesOfSingle(line, ModifiedLine);
  }

  /** Stripping the whole output turns " M p\n" into the single line "M p". */
  lemma AsWrittenSingleLine(p: string)
    requires |p| >= 2 && NoLineBreak(p) && !IsSpace(p[|p| - 1])
    ensures StatusLinesAsWritten(Some(PorcelainText([PorcelainEntry(' ', 'M', p)]))) == ["M " + p]
  {
    var line := "M " + p;
    SingleEntryText(p);
    StripSingleLine(p);
    NoLineBreakConcat("M ", p);
    SplitSingleLine(line);
  }

  lemma NoLineBreakConcat(a: string, b: string)
    requires NoLineBreak(a) && NoLineBreak(b)
    ensures NoLineBreak(a + b)
  {
    forall k | 0 <= k < |a + b| ensures !IsLineBreak((a + b)[k]) {
      if k >= |a| { assert (a + b)[k] == b[k - |a|]; }
    }
  }

  lemma SingleEntryText(p: string)
    ensures PorcelainText([PorcelainEntry(' ', 'M', p)]) == " M " + p + "\n"
  {
    var e := PorcelainEntry(' ', 'M', p);
    assert [e][1..] == [];
    assert EntryLine(e) == " M " + p;
    assert PorcelainText([e]) == EntryLine(e) + "\n" + PorcelainText([]);
  }

  lemma StripSingleLine(p: string)
    requires p != [] && !IsSpace(p[|p| - 1])
    ensures Strip(" M " + p + "\n") == "M " + p
  {
    var text, line := " M " + p + "\n", "M " + p;
    assert TrimLeft(text) == line + "\n" by {
      assert text[1..] == line + "\n";
    }
    assert TrimRight(line + "\n") == line by {
      assert (line + "\n")[..|line|] == line;
      assert line[|line| - 1] == p[|p| - 1];
    }
  }

  /** Read unstripped, the same output is one modified entry. */
  lemma CorrectedSingleLine(p: string)
    requires |p| >= 2 && NoLineBreak(p) && !IsSpace(p[0]) && !IsSpace(p[|p| - 1])
    ensures var raw := Some(PorcelainText([PorcelainEntry(' ', 'M', p)]));
            NamesOfKind(StatusLines(raw), ModifiedLine) == [p] && NamesOfKind(StatusLines(raw), StagedLine) == []
  {
    var e := PorcelainEntry(' ', 'M', p);
    assert [e][1..] == [];
    assert forall i :: 0 <= i < |[e]| ==> EntryPrintable([e][i]);
    StatusRoundTrip([e], ModifiedLine);
    StatusRoundTrip([e], StagedLine);
    assert PathsOfKind([e], ModifiedLine) == [p];
    assert PathsOfKind([e], StagedLine) == [];
  }

  lemma SplitSingleLine(line: string)
    requires line != [] && NoLineBreak(line)
    ensures SplitLines(line) == [line]
  {
    assert BreakIndex(line, 0) == |line| by {
      BreakIndexNone(line, 0);
    }
  }

  lemma NamesOfSingle(line: string, kind: LineKind)
    ensures NamesOfKind([line], kind) == if KindOf(line) == kind then [FileName(line)] else []
  {
    assert [line][..0] == [];
    assert Collect([line], Picker(kind)) == Collect([], Picker(kind)) + Picker(kind)(line);
  }

  lemma {:induction false} BreakIndexNone(s: string, i: nat)
    requires i <= |s| && forall k :: i <= k < |s| ==> !IsLineBreak(s[k])
    ensures BreakIndex(s, i) == |s|
    decreases |s| - i
  {
    if i < |s| {
      BreakIndexNone(s, i + 1);
    }
  }

  /** The classifying loop of `scan_repo`: each line goes to at most one list. */
  method ClassifyStatus(lines: seq<string>) returns (untracked: seq<string>, modified: seq<string>, staged: seq<string>)
    ensures untracked == NamesOfKind(lines, UntrackedLine)
    ensures modified == NamesOfKind(lines, ModifiedLine)
    ensures staged == NamesOfKind(lines, StagedLine)
  {
    untracked, modified, staged := [], [], [];
    for i := 0 to |lines|
      invariant untracked == NamesOfKind(lines[..i], UntrackedLine)
      invariant modified == NamesOfKind(lines[..i], ModifiedLine)
      invariant staged == NamesOfKind(lines[..i], StagedLine)
    {
      assert lines[..i + 1][..i] == lines[..i];
      var line := lines[i];
      var kind := KindOf(line);
      if kind == UntrackedLine {
        untracked := untracked + [FileName(line)];
      } else if kind == ModifiedLine {
        modified := modified + [FileName(line)];
      } else if kind == StagedLine {
        staged := staged + [FileName(line)];
      }
    }
    assert lines[..|lines|] == lines;
  }

  /** What `scan_repo` records for one repository. The status output is read as
    * `_git` returns it, stripped (see `StatusLinesAsWritten`). */
  function RepoState(name: string, path: string, pathExists: string -> bool, run: GitRunner)
    : (g: GitState)
    ensures g.repoName == name && g.repoPath == path
    ensures GitStateValid(g)
    ensures g.available <==> pathExists(path) && Git(run, path, HEAD_ARGS).Some?
    ensures !pathExists(path) ==> g.error == Some("Path not found: " + path)
    ensures pathExists(path) && Git(run, path, HEAD_ARGS).None?
            ==> g.error == Some("Not a git repository or git not available")
    ensures !g.available ==> g.branch.None? && g.aheadBehind.None?
                             && g.untracked == [] && g.modified == [] && g.staged == []
    ensures g.available ==>
              && g.headCommit == Git(run, path, HEAD_ARGS)
              && g.branch == Git(run, path, BRANCH_ARGS)
              && g.untracked == NamesOfKind(StatusLinesAsWritten(run(path, STATUS_ARGS)), UntrackedLine)
              && g.modified == NamesOfKind(StatusLinesAsWritten(run(path, STATUS_ARGS)), ModifiedLine)
              && g.staged == NamesOfKind(StatusLinesAsWritten(run(path, STATUS_ARGS)), StagedLine)
    ensures g.available ==>
              var ab := Git(run, path, AheadBehindArgs(g.branch));
              g.aheadBehind == if ab.Some? && ab.value != "" then ab else None
  {
    if !pathExists(path) then
      GitState(name, path, false, None, None, [], [], [], None, Some("Path not found: " + path))
    else if Git(run, path, HEAD_ARGS).None? then
      GitState(name, path, false, None, None, [], [], [], None,
               Some("Not a git repository or git not available"))
    else
      var branch := Git(run, path, BRANCH_ARGS);
      var lines := StatusLinesAsWritten(run(path, STATUS_ARGS));
      var ab := Git(run, path, AheadBehindArgs(branch));
      GitState(name, path, true, Git(run, path, HEAD_ARGS), branch,
               NamesOfKind(lines, UntrackedLine), NamesOfKind(lines, ModifiedLine),
               NamesOfKind(lines, StagedLine),
               if ab.Some? && ab.value != "" then ab else None, None)
  }

  /** The misreading reaches the recorded state: a repository whose only change
    * is `p` modified in the work tree is recorded with `p[1..]` staged and
    * nothing modified. */
  lemma RepoStateMisreadsWorkTreeChange(name: string, path: string, pathExists: string -> bool,
                                        run: GitRunner, p: string)
    requires pathExists(path) && run(path, HEAD_ARGS).Some?
    requires run(path, STATUS_ARGS) == Some(PorcelainText([PorcelainEntry(' ', 'M', p)]))
    requires |p| >= 2 && NoLineBreak(p) && !IsSpace(p[0]) && !IsSpace(p[1]) && !IsSpace(p[|p| - 1])
    ensures RepoState(name, path, pathExists, run).available
    ensures RepoState(name, path, pathExists, run).staged == [p[1..]]
    ensures RepoState(name, path, pathExists, run).modified == []
  {
    StatusAsWrittenMisreadsFirstLine(p);
  }

  /** `scan_repo`: probe one repository, classifying its status lines in one pass. */
  method ScanRepo(name: string, path: string, pathExists: string -> bool, run: GitRunner)
    returns (g: GitState)
    ensures g == RepoState(name, path, pathExists, run)
  {
    if !pathExists(path) {
      return GitState(name, path, false, None, None, [], [], [], None, Some("Path not found: " + path));
    }
    var head := Git(run, path, HEAD_ARGS);
    if head.None? {
      return GitState(name, path, false, None, None, [], [], [], None,
                      Some("Not a git repository or git not available"));
    }
    var branch := Git(run, path, BRANCH_ARGS);
    var untracked, modified, staged := ClassifyStatus(StatusLinesAsWritten(run(path, STATUS_ARGS)));
    var ab := Git(run, path, AheadBehindArgs(branch));
    var aheadBehind := if ab.Some? && ab.value != "" then ab else None;
    g := GitState(name, path, true, head, branch, untracked, modified, staged, aheadBehind, None);
  }

  // ─── HTTP probing ───────────────────────────────────────────────────────────

  /** `s.rstrip(c)` for one character. */
  function TrimRightChar(s: string, c: char): (r: string)
    ensures |r| <= |s| && r == s[..|r|] && (r == [] || r[|r| - 1] != c)
  {
    if s != [] && s[|s| - 1] == c then TrimRightChar(s[..|s| - 1], c) else s
  }

  /** The probed endpoint: the base URL without trailing slashes, plus "/health". */
  function HealthUrl(url: string): (r: string)
    ensures |r| >= 7 && r[|r| - 7..] == "/health"
    ensures |r| == 7 || r[|r| - 8] != '/'
  {
    TrimRightChar(url, '/') + "/health"
  }

  const VERSION_KEYS: seq<string> := ["version", "v", "app_version"]

  /** `body.get(k)`: JSON null reads as Python `None`, like a missing key. */
  function PyGet(fields: Dict<JsonValue>, k: string): Option<JsonValue> {
    match Get(fields, k)
    case Some(JNull) => None
    case other => other
  }

  predicate OptTruthy(v: Option<JsonValue>) {
    v.Some? && Truthy(v.value)
  }

  /** `body.get("version") or body.get("v") or body.get("app_version")`: the
    * first truthy one of the three; when none is truthy, whatever the last
    * one is. */
  function ReportedVersion(fields: Dict<JsonValue>): (r: Option<JsonValue>)
    ensures OptTruthy(r) ==> exists i :: 0 <= i < 3 && r == PyGet(fields, VERSION_KEYS[i])
                                 && forall j :: 0 <= j < i ==> !OptTruthy(PyGet(fields, VERSION_KEYS[j]))
    ensures !OptTruthy(r) ==> forall j :: 0 <= j < 3 ==> !OptTruthy(PyGet(fields, VERSION_KEYS[j]))
    ensures (forall j :: 0 <= j < 3 ==> !OptTruthy(PyGet(fields, VERSION_KEYS[j])))
            ==> r == PyGet(fields, "app_version")
  {
    var a := PyGet(fields, "version");
    var b := PyGet(fields, "v");
    if OptTruthy(a) then a
    else if OptTruthy(b) then b
    else PyGet(fields, "app_version")
  }

  /** How `probe_service_async` records the outcome `o` of its GET. With httpx
    * any response makes the service reachable, whatever its status code; the
    * urllib fallback raises `HTTPError` on a status outside 200-299, so there
    * only a 2xx response does. An exception leaves the service unreachable with
    * the exception text cut to 120 characters. Only the httpx client decodes
    * the body; urllib records status and latency only. */
  function RecordOutcome(name: string, url: string, httpxAvailable: bool, o: HttpOutcome): (s: ServiceState)
    ensures s.name == name && s.url == url
    ensures ServiceStateValid(s)
    ensures s.reachable <==> o.Response? && (httpxAvailable || UrllibAccepts(o.statusCode))
    ensures s.reachable ==> s.statusCode == Some(o.statusCode) && s.responseTenthsMs == Some(o.elapsedTenthsMs)
    ensures !s.reachable ==> s.error.Some? && |s.error.value| <= 120
                             && s.statusCode.None? && s.responseTenthsMs.None?
    ensures o.Raised? ==> s.error == Some(Prefix(o.message, 120))
    ensures o.Response? && !s.reachable ==> s.error == Some(Prefix(HttpErrorText(o.statusCode, o.reason), 120))
    ensures s.version.Some? ==> httpxAvailable && s.reachable && o.body.Some? && o.body.value.JsonObject?
                                && s.version == ReportedVersion(o.body.value.fields)
  {
    var state := ServiceState(name, url, false, None, None, None, None, None);
    match o
    case Raised(msg) => state.(error := Some(Prefix(msg, 120)))
    case Response(code, reason, ms, body) =>
      if !httpxAvailable && !UrllibAccepts(code) then
        state.(error := Some(Prefix(HttpErrorText(code, reason), 120)))
      else
        var answered := state.(reachable := true, statusCode := Some(code), responseTenthsMs := Some(ms));
        if !httpxAvailable || body.None? then answered
        else
          match body.value
          case JsonObject(fields) =>
            answered.(healthDetail := body, version := ReportedVersion(fields))
          case JsonNonObject(v) =>
            // `body.get` raises on a non-object and the exception is swallowed.
            answered.(healthDetail := if v == JNull then None else body)
  }

  /** `probe_service_async`: GET `<url>/health` (through `get`) and record the
    * outcome. */
  function ProbeService(name: string, url: string, httpxAvailable: bool, get: string -> HttpOutcome)
    : (s: ServiceState)
    ensures s.name == name && s.url == url
    ensures ServiceStateValid(s)
    ensures s.reachable <==> get(HealthUrl(url)).Response?
                             && (httpxAvailable || UrllibAccepts(get(HealthUrl(url)).statusCode))
    ensures s.reachable ==> s.statusCode == Some(get(HealthUrl(url)).statusCode)
                            && s.responseTenthsMs == Some(get(HealthUrl(url)).elapsedTenthsMs)
    ensures !s.reachable ==> s.error.Some? && |s.error.value| <= 120
                             && s.statusCode.None? && s.responseTenthsMs.None?
    ensures get(HealthUrl(url)).Raised? ==> s.error == Some(Prefix(get(HealthUrl(url)).message, 120))
    ensures get(HealthUrl(url)).Response? && !s.reachable
            ==> s.error == Some(Prefix(HttpErrorText(get(HealthUrl(url)).statusCode,
                                                     get(HealthUrl(url)).reason), 120))
    ensures s.version.Some? ==> httpxAvailable && s.reachable
                                && get(HealthUrl(url)).body.Some?
                                && get(HealthUrl(url)).body.value.JsonObject?
                                && s.version == ReportedVersion(get(HealthUrl(url)).body.value.fields)
  {
    RecordOutcome(name, url, httpxAvailable, get(HealthUrl(url)))
  }

  /** A probe task as `asyncio.gather(..., return_exceptions=True)` hands it back:
    * the task raised with this text, or it returned its state. */
  type TaskCrash = string -> Option<string>

  /** The state one gathered task stands for: a crash is an unreachable state
    * carrying the exception text, otherwise the probe's own state. */
  function TaskState(name: string, url: string, httpxAvailable: bool, get: string -> HttpOutcome,
                     crashed: TaskCrash): (s: ServiceState)
    ensures s.name == name && s.url == url && ServiceStateValid(s)
    ensures crashed(name).Some? ==> !s.reachable && s.error == crashed(name)
    ensures crashed(name).None? ==> s == ProbeService(name, url, httpxAvailable, get)
  {
    match crashed(name)
    case Some(msg) => ServiceState(name, url, false, None, None, None, None, Some(msg))
    case None => ProbeService(name, url, httpxAvailable, get)
  }

  /** `scan_services_async`, with the concurrent probes run one after another:
    * one state per configured service, in configuration order; a task that
    * raised becomes an unreachable state carrying the exception text. */
  method ScanServices(services: Dict<string>, httpxAvailable: bool, get: string -> HttpOutcome,
                      crashed: TaskCrash)
    returns (out: Dict<ServiceState>)
    requires DistinctKeys(services)
    ensures Keys(out) == Keys(services)
    ensures forall i :: 0 <= i < |out| ==> ServiceStateValid(out[i].1)
    ensures forall i :: 0 <= i < |out| ==>
              out[i].1 == TaskState(services[i].0, services[i].1, httpxAvailable, get, crashed)
  {
    out := [];
    for i := 0 to |services|
      invariant |out| == i
      invariant forall k :: 0 <= k < i ==> out[k].0 == services[k].0
      invariant forall k :: 0 <= k < i ==>
                  out[k].1 == TaskState(services[k].0, services[k].1, httpxAvailable, get, crashed)
    {
      var (name, url) := services[i];
      var result: ServiceState;
      match crashed(name) {
        case Some(msg) =>
          result := ServiceState(name, url, false, None, None, None, None, Some(msg));
        case None =>
          result := ProbeService(name, url, httpxAvailable, get);
      }
      out := out + [(name, result)];
    }
  }

  // ─── Filesystem and full scan ───────────────────────────────────────────────

  /** The key files checked on every scan, key to path. */
  const KEY_FILES: Dict<string> := [
    ("coach/APPENDIX_PERSISTENCE_NERVOUS_SYSTEM.md",
     Config.PathJoin(Config.REPOS[0].1, "APPENDIX_PERSISTENCE_NERVOUS_SYSTEM.md")),
    ("coach/APPENDIX_PHASE_TRACKER.md",
     Config.PathJoin(Config.REPOS[0].1, "APPENDIX_PHASE_TRACKER.md")),
    ("omni/path_tau/README.md",
     Config.PathJoin(Config.PathJoin(Config.REPOS[4].1, "path_tau"), "README.md")),
    ("omni/path_tau/orchestrator/__init__.py",
     Config.PathJoin(Config.PathJoin(Config.PathJoin(Config.PathJoin(Config.REPOS[4].1, "path_tau"),
                                                     "orchestrator"), "orchestrator"), "__init__.py")),
    ("bridge/tau_integration.py", Config.PathJoin(Config.REPOS[5].1, "tau_integration.py")),
    ("bridge/cloud_eye_mcp_bridge.py", Config.PathJoin(Config.REPOS[5].1, "cloud_eye_mcp_bridge.py")),
    ("librarian_db", Config.LIBRARIAN_DB),
    ("sapphire_db", Config.SAPPHIRE_DB)
  ]

  /** `scan_filesystem`: exactly the key-file keys, in order, each with whether its path exists. */
  function ScanFilesystem(pathExists: string -> bool): (fs: Dict<bool>)
    ensures Keys(fs) == Keys(KEY_FILES)
    ensures forall i :: 0 <= i < |fs| ==> fs[i].1 == pathExists(KEY_FILES[i].1)
  {
    seq(|KEY_FILES|, i requires 0 <= i < |KEY_FILES| => (KEY_FILES[i].0, pathExists(KEY_FILES[i].1)))
  }

  /** Everything a scan observes of the outside world. */
  datatype World = World(
    pathExists: string -> bool,
    run: GitRunner,
    httpxAvailable: bool,
    get: string -> HttpOutcome,
    crashed: TaskCrash,
    librarian: LibrarianState,
    sapphire: SapphireState,
    startedAt: string,
    elapsedTenthsMs: nat)

  /** The repository loop of `full_scan`: one state per repository, in order. */
  method ScanRepos(repos: Dict<string>, pathExists: string -> bool, run: GitRunner) returns (git: Dict<GitState>)
    ensures Keys(git) == Keys(repos)
    ensures forall i :: 0 <= i < |git| ==>
              git[i].1.repoName == repos[i].0 && git[i].1.repoPath == repos[i].1 && GitStateValid(git[i].1)
    ensures forall i :: 0 <= i < |git| ==> git[i].1 == RepoState(repos[i].0, repos[i].1, pathExists, run)
  {
    git := [];
    for i := 0 to |repos|
      invariant |git| == i
      invariant forall k :: 0 <= k < i ==>
                  git[k].0 == repos[k].0 && git[k].1 == RepoState(repos[k].0, repos[k].1, pathExists, run)
      invariant forall k :: 0 <= k < i ==>
                  git[k].1.repoName == repos[k].0 && git[k].1.repoPath == repos[k].1 && GitStateValid(git[k].1)
    {
      var g := ScanRepo(repos[i].0, repos[i].1, pathExists, run);
      git := git + [(repos[i].0, g)];
    }
  }

  /** The configured service names are distinct, as the keys of a Python dict are. */
  lemma ConfiguredServicesDistinct()
    ensures DistinctKeys(Config.SERVICES)
  {
  }

  /** `full_scan`: every configured repository, the key files, both stores and
    * every configured service, stamped with the time the scan started. */
  method FullScan(w: World) returns (r: RealitySnapshot)
    ensures r.scannedAt == w.startedAt && r.scanDurationTenthsMs == w.elapsedTenthsMs
    ensures Keys(r.git) == Keys(Config.REPOS)
    ensures forall i :: 0 <= i < |r.git| ==>
              r.git[i].1.repoName == Config.REPOS[i].0 && r.git[i].1.repoPath == Config.REPOS[i].1
              && GitStateValid(r.git[i].1)
    ensures forall i :: 0 <= i < |r.git| ==>
              r.git[i].1 == RepoState(Config.REPOS[i].0, Config.REPOS[i].1, w.pathExists, w.run)
    ensures Keys(r.services) == Keys(Config.SERVICES)
    ensures forall i :: 0 <= i < |r.services| ==> ServiceStateValid(r.services[i].1)
    ensures forall i :: 0 <= i < |r.services| ==>
              r.services[i].1 == TaskState(Config.SERVICES[i].0, Config.SERVICES[i].1,
                                           w.httpxAvailable, w.get, w.crashed)
    ensures r.filesystem == ScanFilesystem(w.pathExists)
    ensures r.librarian == w.librarian && r.sapphire == w.sapphire
  {
    var git := ScanRepos(Config.REPOS, w.pathExists, w.run);
    var fs := ScanFilesystem(w.pathExists);
    ConfiguredServicesDistinct();
    var services := ScanServices(Config.SERVICES, w.httpxAvailable, w.get, w.crashed);
    r := RealitySnapshot(w.startedAt, w.elapsedTenthsMs, git, services, w.librarian, w.sapphire, fs);
  }
}
