/**
 * Hand-written matchers for the four regular expressions the claim extractor
 * runs with `finditer` (librarian2/detector.py), all compiled with IGNORECASE:
 *
 *   commit context  (?:master|HEAD|branch|commit|at)\s+([0-9a-f]{7,10})\b
 *   service up      (lxr-5|coach|cloudeye-lxr|cloudeye-ui)[^\n]*:\s*(UP|LIVE|healthy|running|operational)
 *   active bug      (?:BUG\s*\d+|no such table|no such column|attribute.*get|sqlite3\.Row).*
 *   file claim      (?:committed|deployed|created|exists|saved).*?([A-Za-z0-9_\-/\\]+\.(?:py|md|js|ts|jsx|sql|toml|json))\b
 *
 * Each matcher answers what the backtracking engine finds when it starts at
 * one position; `FindAll` is `finditer`: leftmost, non-overlapping, and the
 * search resumes where the previous match ended. Within each alternation no
 * word is a prefix of another, so no two alternatives can match at the same
 * position; trying them in order and taking the first that matches is then
 * what the engine does. Case folding, `\w` and `\d` are for ASCII.
 */
module Patterns {
  import opened Wrappers
  import opened Text

  /** A match: `s[start..end]` is group 0 and `s[groupStart..groupEnd]` group 1. */
  datatype Match = Match(start: nat, end: nat, groupStart: nat, groupEnd: nat)

  predicate MatchIn(s: string, m: Match) {
    m.start < m.end <= |s| && m.start <= m.groupStart <= m.groupEnd <= m.end
  }

  function Whole(s: string, m: Match): string
    requires MatchIn(s, m)
  {
    s[m.start..m.end]
  }

  function Group(s: string, m: Match): string
    requires MatchIn(s, m)
  {
    s[m.groupStart..m.groupEnd]
  }

  // ─── Character classes ────────────────────────────────────────────────────

  datatype CharClass = Space | HexDigit | Digit | PathChar

  predicate IsHexDigit(c: char) {
    '0' <= c <= '9' || 'a' <= c <= 'f' || 'A' <= c <= 'F'
  }

  /** `\w` (ASCII). */
  predicate IsWordChar(c: char) {
    '0' <= c <= '9' || 'a' <= c <= 'z' || 'A' <= c <= 'Z' || c == '_'
  }

  /** `[A-Za-z0-9_\-/\\]`. */
  predicate IsPathChar(c: char) {
    '0' <= c <= '9' || 'a' <= c <= 'z' || 'A' <= c <= 'Z' || c == '_' || c == '-' || c == '/' || c == '\\'
  }

  predicate InClass(c: char, cls: CharClass) {
    match cls
    case Space => IsSpace(c)
    case HexDigit => IsHexDigit(c)
    case Digit => IsDigit(c)
    case PathChar => IsPathChar(c)
  }

  /** The length of the longest run of characters of `cls` starting at `j`. */
  function Span(s: string, j: nat, cls: CharClass): (n: nat)
    requires j <= |s|
    ensures j + n <= |s|
    ensures forall k :: j <= k < j + n ==> InClass(s[k], cls)
    ensures j + n == |s| || !InClass(s[j + n], cls)
    decreases |s| - j
  {
    if j < |s| && InClass(s[j], cls) then 1 + Span(s, j + 1, cls) else 0
  }

  /** `\b` after a word character: the end of the text or a non-word character. */
  predicate BoundaryAt(s: string, e: nat)
    requires e <= |s|
  {
    e == |s| || !IsWordChar(s[e])
  }

  /** The index of the first `'\n'` at or after `j`, or `|s|` (where `[^\n]*` stops). */
  function LineEnd(s: string, j: nat): (e: nat)
    requires j <= |s|
    ensures j <= e <= |s| && (e < |s| ==> s[e] == '\n')
    ensures forall k :: j <= k < e ==> s[k] != '\n'
    decreases |s| - j
  {
    if j == |s| || s[j] == '\n' then j else LineEnd(s, j + 1)
  }

  /** A lower-case literal matched case-insensitively at `i`. */
  predicate LiteralAt(s: string, i: nat, lit: string) {
    i + |lit| <= |s| && Lower(s[i..i + |lit|]) == lit
  }

  /** The length of the first of `lits` that matches at `i`. */
  function FirstLiteralAt(s: string, i: nat, lits: seq<string>): (r: Option<nat>)
    ensures r.Some? ==> exists k :: 0 <= k < |lits| && |lits[k]| == r.value && LiteralAt(s, i, lits[k])
    ensures r.None? ==> forall k :: 0 <= k < |lits| ==> !LiteralAt(s, i, lits[k])
  {
    if lits == [] then None
    else if LiteralAt(s, i, lits[0]) then Some(|lits[0]|)
    else FirstLiteralAt(s, i, lits[1..])
  }

  /** Some start `p` with `lo <= p` and `p + |lit| <= hi` where `lit` matches. */
  predicate LiteralWithin(s: string, lo: nat, hi: nat, lit: string)
    requires hi <= |s|
    decreases hi - lo
  {
    lo + |lit| <= hi && (LiteralAt(s, lo, lit) || LiteralWithin(s, lo + 1, hi, lit))
  }

  // ─── Commit context ───────────────────────────────────────────────────────

  const COMMIT_WORDS: seq<string> := ["master", "head", "branch", "commit", "at"]

  /** A context word, at least one whitespace character, then a run of 7 to 10
    * hex digits that ends at a word boundary (a longer run, or one followed by
    * a letter, digit or underscore, cannot match at all). */
  function CommitAt(s: string, i: nat): (r: Option<Match>)
    requires i < |s|
    ensures r.Some? ==> MatchIn(s, r.value) && r.value.start == i
    ensures r.Some? ==> r.value.groupEnd == r.value.end
                        && 7 <= r.value.groupEnd - r.value.groupStart <= 10
                        && forall k :: r.value.groupStart <= k < r.value.groupEnd ==> IsHexDigit(s[k])
  {
    match FirstLiteralAt(s, i, COMMIT_WORDS)
    case None => None
    case Some(n) =>
      var j := i + n;
      var spaces := Span(s, j, Space);
      var h := j + spaces;
      var digits := Span(s, h, HexDigit);
      if spaces >= 1 && 7 <= digits <= 10 && BoundaryAt(s, h + digits)
      then Some(Match(i, h + digits, h, h + digits))
      else None
  }

  // ─── Service up ───────────────────────────────────────────────────────────

  const SERVICE_NAMES: seq<string> := ["lxr-5", "coach", "cloudeye-lxr", "cloudeye-ui"]
  const UP_WORDS: seq<string> := ["up", "live", "healthy", "running", "operational"]

  /** After the colon at `j`: optional whitespace (newlines included), then an up-word; the match end. */
  function UpWordAfterColon(s: string, j: nat): (r: Option<nat>)
    requires j < |s|
    ensures r.Some? ==> j < r.value <= |s|
  {
    var spaces := Span(s, j + 1, Space);
    match FirstLiteralAt(s, j + 1 + spaces, UP_WORDS)
    case None => None
    case Some(n) => Some(j + 1 + spaces + n)
  }

  /** `[^\n]*:` backtracks from the end of the line: the last colon in
    * `[lo, hi)` that an up-word follows decides the match end. */
  function LastUpColon(s: string, lo: nat, hi: nat): (r: Option<nat>)
    requires lo <= hi <= |s|
    ensures r.Some? ==> lo < r.value <= |s|
    decreases hi - lo
  {
    if hi == lo then None
    else if s[hi - 1] == ':' && UpWordAfterColon(s, hi - 1).Some? then UpWordAfterColon(s, hi - 1)
    else LastUpColon(s, lo, hi - 1)
  }

  /** A service name (group 1), then on the same line a colon that an up-word follows. */
  function ServiceUpAt(s: string, i: nat): (r: Option<Match>)
    requires i < |s|
    ensures r.Some? ==> MatchIn(s, r.value) && r.value.start == i && r.value.groupStart == i
    ensures r.Some? ==> Lower(Group(s, r.value)) in SERVICE_NAMES
  {
    match FirstLiteralAt(s, i, SERVICE_NAMES)
    case None => None
    case Some(n) =>
      match LastUpColon(s, i + n, LineEnd(s, i + n))
      case None => None
      case Some(e) => Some(Match(i, e, i, i + n))
  }

  // ─── Active bug ───────────────────────────────────────────────────────────

  /** One of the defect signatures at `i`; the trailing `.*` runs the match to
    * the end of the line it is on. */
  function BugAt(s: string, i: nat): (r: Option<Match>)
    requires i < |s|
    ensures r.Some? ==> MatchIn(s, r.value) && r.value.start == i
    ensures r.Some? ==> r.value.end == |s| || s[r.value.end] == '\n'
  {
    if LiteralAt(s, i, "bug") then
      var spaces := Span(s, i + 3, Space);
      var digits := Span(s, i + 3 + spaces, Digit);
      if digits >= 1 then Some(Match(i, LineEnd(s, i + 3 + spaces + digits), i, i)) else None
    else if LiteralAt(s, i, "no such table") then Some(Match(i, LineEnd(s, i + 13), i, i))
    else if LiteralAt(s, i, "no such column") then Some(Match(i, LineEnd(s, i + 14), i, i))
    else if LiteralAt(s, i, "attribute") && LiteralWithin(s, i + 9, LineEnd(s, i + 9), "get")
      then Some(Match(i, LineEnd(s, i + 9), i, i))
    else if LiteralAt(s, i, "sqlite3.row") then Some(Match(i, LineEnd(s, i + 11), i, i))
    else None
  }

  const BUG_MARKERS: seq<string> := ["bug inventory", "known runtime", "before state", "runtime bugs"]

  /** `re.search(r'BUG INVENTORY|KNOWN RUNTIME|BEFORE STATE|runtime bugs', content, re.IGNORECASE)`. */
  predicate HasBugMarker(content: string) {
    AnyContained(Lower(content), BUG_MARKERS)
  }

  /** Some of `needles` occurs in `hay`. */
  predicate AnyContained(hay: string, needles: seq<string>) {
    needles != [] && (Contains(hay, needles[0]) || AnyContained(hay, needles[1..]))
  }

  // ─── File claim ───────────────────────────────────────────────────────────

  const FILE_VERBS: seq<string> := ["committed", "deployed", "created", "exists", "saved"]
  const EXTENSIONS: seq<string> := ["py", "md", "js", "ts", "jsx", "sql", "toml", "json"]

  /** The first extension that matches at `q` and ends at a word boundary
    * ("js" gives way to "jsx" and "json" when a letter follows); the match end. */
  function ExtensionAt(s: string, q: nat, exts: seq<string>): (r: Option<nat>)
    requires q <= |s|
    ensures r.Some? ==> q < r.value <= |s| && BoundaryAt(s, r.value)
    ensures r.Some? ==> exists k :: 0 <= k < |exts| && LiteralAt(s, q, exts[k]) && r.value == q + |exts[k]|
  {
    if exts == [] then None
    else if exts[0] != "" && LiteralAt(s, q, exts[0]) && BoundaryAt(s, q + |exts[0]|) then Some(q + |exts[0]|)
    else ExtensionAt(s, q, exts[1..])
  }

  /** A path token starting at `p`: a maximal run of path characters, a dot and
    * an extension; the token's end. */
  function PathAt(s: string, p: nat): (r: Option<nat>)
    requires p <= |s|
    ensures r.Some? ==> p < r.value <= |s| && BoundaryAt(s, r.value)
  {
    var run := Span(s, p, PathChar);
    if run >= 1 && p + run < |s| && s[p + run] == '.' then ExtensionAt(s, p + run + 1, EXTENSIONS)
    else None
  }

  /** The lazy `.*?`: the first start in `[p, hi)` where a path token matches. */
  function FirstPathFrom(s: string, p: nat, hi: nat): (r: Option<(nat, nat)>)
    requires p <= hi <= |s|
    ensures r.Some? ==> p <= r.value.0 < r.value.1 <= |s| && PathAt(s, r.value.0) == Some(r.value.1)
    decreases hi - p
  {
    if p == hi then None
    else match PathAt(s, p)
      case Some(e) => Some((p, e))
      case None => FirstPathFrom(s, p + 1, hi)
  }

  /** A file verb, then on the same line the nearest path token (group 1). */
  function FileClaimAt(s: string, i: nat): (r: Option<Match>)
    requires i < |s|
    ensures r.Some? ==> MatchIn(s, r.value) && r.value.start == i && r.value.groupEnd == r.value.end
    ensures r.Some? ==> PathAt(s, r.value.groupStart) == Some(r.value.groupEnd)
  {
    match FirstLiteralAt(s, i, FILE_VERBS)
    case None => None
    case Some(n) =>
      match FirstPathFrom(s, i + n, LineEnd(s, i + n))
      case None => None
      case Some(t) => Some(Match(i, t.1, t.0, t.1))
  }

  // ─── The four patterns ────────────────────────────────────────────────────

  datatype Pattern = CommitContext | ServiceUp | ActiveBug | FileClaim

  /** What a match of each pattern looks like: the facts the claim extractor relies on. */
  predicate Shaped(pat: Pattern, s: string, m: Match) {
    MatchIn(s, m)
    && match pat
       case CommitContext =>
         m.groupEnd == m.end && 7 <= m.groupEnd - m.groupStart <= 10
         && forall k :: m.groupStart <= k < m.groupEnd ==> IsHexDigit(s[k])
       case ServiceUp => m.groupStart == m.start && Lower(s[m.groupStart..m.groupEnd]) in SERVICE_NAMES
       case ActiveBug => m.end == |s| || s[m.end] == '\n'
       case FileClaim => m.groupEnd == m.end
  }

  function MatchAt(pat: Pattern, s: string, i: nat): (r: Option<Match>)
    requires i < |s|
    ensures r.Some? ==> Shaped(pat, s, r.value) && r.value.start == i
  {
    match pat
    case CommitContext => CommitAt(s, i)
    case ServiceUp => ServiceUpAt(s, i)
    case ActiveBug => BugAt(s, i)
    case FileClaim => FileClaimAt(s, i)
  }

  // ─── finditer ─────────────────────────────────────────────────────────────

  /** What a search tries at each position: the match that starts there, if any. */
  type Matcher = nat -> Option<Match>

  function MatcherOf(pat: Pattern, s: string): Matcher {
    (i: nat) => if i < |s| then MatchAt(pat, s, i) else None
  }

  /** A matcher that only reports a non-empty match starting where it was asked, inside `[0, n)`. */
  ghost predicate Anchored(f: Matcher, n: nat) {
    forall i: nat :: f(i).Some? ==> i < n && f(i).value.start == i < f(i).value.end
  }

  /** The `finditer` loop over positions `pos` to `n`: a match is reported and the
    * search resumes at its end; where nothing matches it moves on by one (as it
    * also does past an empty match, which the matchers here never report). */
  function Scan(f: Matcher, n: nat, pos: nat): seq<Match>
    decreases n - pos
  {
    if pos >= n then []
    else
      match f(pos)
      case Some(m) => [m] + Scan(f, n, if m.end > pos then m.end else pos + 1)
      case None => Scan(f, n, pos + 1)
  }

  /** `pattern.finditer(s)` from position `pos`. */
  function FindAll(pat: Pattern, s: string, pos: nat): seq<Match> {
    Scan(MatcherOf(pat, s), |s|, pos)
  }

  predicate FoundIn(pat: Pattern, s: string, ms: seq<Match>) {
    forall k :: 0 <= k < |ms| ==> Shaped(pat, s, ms[k])
  }

  /** A property of every match the matcher can report at or after `pos` holds of every match the scan reports. */
  lemma {:induction false} ScanKeeps(f: Matcher, n: nat, pos: nat, good: Match -> bool)
    requires forall i :: pos <= i && f(i).Some? ==> good(f(i).value)
    ensures forall k :: 0 <= k < |Scan(f, n, pos)| ==> good(Scan(f, n, pos)[k])
    decreases n - pos
  {
    if pos < n {
      match f(pos)
      case Some(m) =>
        var next := if m.end > pos then m.end else pos + 1;
        ScanKeeps(f, n, next, good);
        var rest := Scan(f, n, next);
        assert Scan(f, n, pos) == [m] + rest;
        assert forall k :: 1 <= k < |rest| + 1 ==> ([m] + rest)[k] == rest[k - 1];
      case None =>
        ScanKeeps(f, n, pos + 1, good);
    }
  }

  /** Matches at or after `pos`, in order, without overlap. */
  predicate InOrderFrom(ms: seq<Match>, pos: nat) {
    (forall k :: 0 <= k < |ms| ==> pos <= ms[k].start)
    && (forall k :: 0 <= k < |ms| - 1 ==> ms[k].end <= ms[k + 1].start)
  }

  lemma ConsInOrder(m: Match, rest: seq<Match>, pos: nat)
    requires pos <= m.start < m.end && InOrderFrom(rest, m.end)
    ensures InOrderFrom([m] + rest, pos)
  {
    assert forall k :: 1 <= k < |rest| + 1 ==> ([m] + rest)[k] == rest[k - 1];
  }

  /** With an anchored matcher the scan reports matches at or after `pos`, in order, without overlap. */
  lemma {:induction false} ScanOrdered(f: Matcher, n: nat, pos: nat)
    requires Anchored(f, n)
    ensures InOrderFrom(Scan(f, n, pos), pos)
    decreases n - pos
  {
    if pos < n {
      match f(pos)
      case Some(m) =>
        ScanOrdered(f, n, m.end);
        assert Scan(f, n, pos) == [m] + Scan(f, n, m.end);
        ConsInOrder(m, Scan(f, n, m.end), pos);
      case None =>
        ScanOrdered(f, n, pos + 1);
        assert Scan(f, n, pos) == Scan(f, n, pos + 1);
    }
  }

  /** With an anchored matcher nothing matches between `pos` and the first reported match. */
  lemma {:induction false} ScanLeftmost(f: Matcher, n: nat, pos: nat, p: nat)
    requires Anchored(f, n) && pos <= p < n
    requires Scan(f, n, pos) == [] || p < Scan(f, n, pos)[0].start
    ensures f(p).None?
    decreases p - pos
  {
    if p > pos {
      assert f(pos).None?;
      ScanLeftmost(f, n, pos + 1, p);
    }
  }

  lemma MatcherAnchored(pat: Pattern, s: string)
    ensures Anchored(MatcherOf(pat, s), |s|)
  {
  }

  /** Every match `finditer` reports has the shape of its pattern and starts at or after `pos`. */
  lemma FindAllShaped(pat: Pattern, s: string, pos: nat)
    ensures FoundIn(pat, s, FindAll(pat, s, pos))
    ensures forall k :: 0 <= k < |FindAll(pat, s, pos)| ==> pos <= FindAll(pat, s, pos)[k].start
  {
    ScanKeeps(MatcherOf(pat, s), |s|, pos, (m: Match) => pos <= m.start && Shaped(pat, s, m));
  }

  /** The matches `finditer` reports come in order and do not overlap. */
  lemma FindAllInOrder(pat: Pattern, s: string, pos: nat)
    ensures InOrderFrom(FindAll(pat, s, pos), pos)
  {
    MatcherAnchored(pat, s);
    ScanOrdered(MatcherOf(pat, s), |s|, pos);
  }

  /** No position is skipped: before the first reported match (and so, by
    * the resumption, between any two) the pattern matches nowhere. */
  lemma FindAllLeftmost(pat: Pattern, s: string, pos: nat, p: nat)
    requires pos <= p < |s|
    requires FindAll(pat, s, pos) == [] || p < FindAll(pat, s, pos)[0].start
    ensures MatchAt(pat, s, p).None?
  {
    MatcherAnchored(pat, s);
    ScanLeftmost(MatcherOf(pat, s), |s|, pos, p);
    assert MatcherOf(pat, s)(p) == MatchAt(pat, s, p);
  }
}
