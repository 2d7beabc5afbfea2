/**
 * The illusion detector (librarian2/detector.py): typed claims are mined from
 * free-text guidance entries, checked against a reality snapshot, deduplicated
 * by `(claim_type, expected_value[:40])` and stably ranked by verdict, then
 * severity. The database reader that supplies the entries is a parameter.
 */
module Detector {
  import opened Wrappers
  import opened Text
  import opened Dicts
  import opened Patterns
  import opened Scanner

  // ─── Claims ─────────────────────────────────────────────────────────────────

  datatype Verdict = Verified | Illusion | Unverifiable | Stale
  datatype Severity = High | Medium | Low
  datatype ClaimType = GitCommit | ServiceHealth | BugActive | FileExists

  datatype Claim = Claim(
    entryId: string,
    entryPriority: string,
    claimType: ClaimType,
    claimText: string,
    expectedValue: string,
    verdict: Verdict,
    actualValue: Option<string>,
    severity: Severity,
    note: Option<string>)

  /** The strings the source stores in `verdict`, `severity` and `claim_type`. */
  function VerdictName(v: Verdict): string {
    match v
    case Verified => "VERIFIED"
    case Illusion => "ILLUSION"
    case Unverifiable => "UNVERIFIABLE"
    case Stale => "STALE"
  }

  function SeverityName(s: Severity): string {
    match s
    case High => "HIGH"
    case Medium => "MEDIUM"
    case Low => "LOW"
  }

  function ClaimTypeName(t: ClaimType): string {
    match t
    case GitCommit => "git_commit"
    case ServiceHealth => "service_health"
    case BugActive => "bug_active"
    case FileExists => "file_exists"
  }

  /** Verification changes a claim's verdict, actual value, severity and note, and nothing else. */
  predicate SameAssertion(c: Claim, r: Claim) {
    r.entryId == c.entryId && r.entryPriority == c.entryPriority && r.claimType == c.claimType
    && r.claimText == c.claimText && r.expectedValue == c.expectedValue
  }

  /** What `verify_claims` needs of a claim: a service claim's expected value
    * has the `name:status` form that `split(":", 1)` unpacks. */
  predicate ClaimWellTyped(c: Claim) {
    c.claimType == ServiceHealth ==> ':' in c.expectedValue
  }

  // ─── Service names ──────────────────────────────────────────────────────────

  const NORMALIZED_NAMES: seq<string> := ["lxr-5", "coach", "lxr", "ui"]

  /** `_service_name_normalize`: the scan key a mentioned service name stands for. */
  function ServiceNameNormalize(raw: string): (r: Option<string>)
    ensures r.Some? ==> r.value in NORMALIZED_NAMES
    ensures r == Some("lxr-5") <==> Contains(Lower(raw), "lxr-5") || Contains(Lower(raw), "lxr5")
    ensures r.None? <==> !Contains(Lower(raw), "lxr-5") && !Contains(Lower(raw), "lxr5")
                         && !Contains(Lower(raw), "coach") && !Contains(Lower(raw), "cloudeye-lxr")
                         && !Contains(Lower(raw), "cloudeye-ui") && !Contains(Lower(raw), "ui")
  {
    var low := Lower(raw);
    if Contains(low, "lxr-5") || Contains(low, "lxr5") then Some("lxr-5")
    else if Contains(low, "coach") then Some("coach")
    else if Contains(low, "cloudeye-lxr") then Some("lxr")
    else if Contains(low, "cloudeye-ui") || Contains(low, "ui") then Some("ui")
    else None
  }

  /** Each name the service pattern can capture, in any letter case, maps to its
    * scan key: lxr-5 and coach stay, cloudeye-lxr becomes lxr, cloudeye-ui ui. */
  lemma NormalizeCapturedNames(raw: string, k: nat)
    requires k < |SERVICE_NAMES| && Lower(raw) == SERVICE_NAMES[k]
    ensures ServiceNameNormalize(raw) == Some(NORMALIZED_NAMES[k])
  {
    var low := Lower(raw);
    if k == 0 {
      assert StartsWith(low, "lxr-5");
    } else if k == 1 {
      assert '5' !in low && StartsWith(low, "coach");
      NormalizeCoach(low);
    } else if k == 2 {
      assert '5' !in low && 'a' !in low && StartsWith(low, "cloudeye-lxr");
      NormalizeCloudeyeLxr(low);
    } else {
      assert '5' !in low && 'a' !in low && |low| == 11 && StartsWith(low, "cloudeye-ui");
      NormalizeCloudeyeUi(low);
    }
  }

  lemma NormalizeCoach(low: string)
    requires '5' !in low && StartsWith(low, "coach")
    ensures !Contains(low, "lxr-5") && !Contains(low, "lxr5") && Contains(low, "coach")
  {
    NotContainsChar(low, "lxr-5", '5');
    NotContainsChar(low, "lxr5", '5');
  }

  lemma NormalizeCloudeyeLxr(low: string)
    requires '5' !in low && 'a' !in low && StartsWith(low, "cloudeye-lxr")
    ensures !Contains(low, "lxr-5") && !Contains(low, "lxr5") && !Contains(low, "coach") && Contains(low, "cloudeye-lxr")
  {
    NotContainsChar(low, "lxr-5", '5');
    NotContainsChar(low, "lxr5", '5');
    NotContainsChar(low, "coach", 'a');
  }

  lemma NormalizeCloudeyeUi(low: string)
    requires '5' !in low && 'a' !in low && |low| == 11 && StartsWith(low, "cloudeye-ui")
    ensures !Contains(low, "lxr-5") && !Contains(low, "lxr5") && !Contains(low, "coach")
            && !Contains(low, "cloudeye-lxr") && Contains(low, "cloudeye-ui")
  {
    NotContainsChar(low, "lxr-5", '5');
    NotContainsChar(low, "lxr5", '5');
    NotContainsChar(low, "coach", 'a');
    NotContainsLonger(low, "cloudeye-lxr");
  }

  lemma {:induction false} NotContainsLonger(hay: string, needle: string)
    requires |hay| < |needle|
    ensures !Contains(hay, needle)
    decreases |hay|
  {
    if hay != [] {
      NotContainsLonger(hay[1..], needle);
    }
  }

  lemma {:induction false} NotContainsChar(hay: string, needle: string, c: char)
    requires c in needle && c !in hay
    ensures !Contains(hay, needle)
    decreases |hay|
  {
    var k :| 0 <= k < |needle| && needle[k] == c;
    if |needle| <= |hay| {
      assert hay[..|needle|][k] != needle[k];
    }
    if hay != [] {
      assert forall k :: 0 <= k < |hay[1..]| ==> hay[1..][k] == hay[k + 1];
      NotContainsChar(hay[1..], needle, c);
    }
  }

  // ─── Extraction ─────────────────────────────────────────────────────────────

  function ClaimTypeOf(pat: Pattern): ClaimType {
    match pat
    case CommitContext => GitCommit
    case ServiceUp => ServiceHealth
    case ActiveBug => BugActive
    case FileClaim => FileExists
  }

  predicate IsLowerHex(s: string) {
    forall k :: 0 <= k < |s| ==> '0' <= s[k] <= '9' || 'a' <= s[k] <= 'f'
  }

  const SERVICE_CLAIMS: seq<string> := ["lxr-5:UP", "coach:UP", "lxr:UP", "ui:UP"]

  /** What an extracted claim looks like: unverified, tagged with its entry,
    * and shaped by its kind. */
  predicate Extracted(c: Claim, entryId: string, priority: string) {
    c.entryId == entryId && c.entryPriority == priority && c.verdict == Unverifiable
    && c.actualValue.None? && c.note.None?
    && (c.claimType == GitCommit ==> 7 <= |c.expectedValue| <= 10 && IsLowerHex(c.expectedValue) && c.severity == Low)
    && (c.claimType == ServiceHealth ==> c.expectedValue in SERVICE_CLAIMS && ':' in c.expectedValue && c.severity == Low)
    && (c.claimType == BugActive ==> c.expectedValue == "bug:present" && c.severity == High && |c.claimText| <= 120)
    && (c.claimType == FileExists ==> |c.expectedValue| > 4 && |c.claimText| <= 120 && c.severity == Low)
  }

  /** A commit-context match: its hex token, lower-cased, is the expected value. */
  function CommitClaim(entryId: string, priority: string, s: string, m: Match): (c: Claim)
    requires Shaped(CommitContext, s, m)
    ensures Extracted(c, entryId, priority) && c.claimType == GitCommit
    ensures c.expectedValue == Lower(Group(s, m)) && c.claimText == Whole(s, m)
  {
    var token := Lower(Group(s, m));
    assert forall k :: 0 <= k < |token| ==> IsHexDigit(Group(s, m)[k]);
    Claim(entryId, priority, GitCommit, Whole(s, m), token, Unverifiable, None, Low, None)
  }

  lemma ServiceGroupNormalizes(s: string, m: Match)
    requires Shaped(ServiceUp, s, m)
    ensures ServiceNameNormalize(Group(s, m)).Some?
  {
    var k :| 0 <= k < |SERVICE_NAMES| && Lower(Group(s, m)) == SERVICE_NAMES[k];
    NormalizeCapturedNames(Group(s, m), k);
  }

  lemma ServiceClaimForm(name: string)
    requires name in NORMALIZED_NAMES
    ensures name + ":UP" in SERVICE_CLAIMS && ':' in name + ":UP"
  {
    var i :| 0 <= i < 4 && name == NORMALIZED_NAMES[i];
    assert name + ":UP" == SERVICE_CLAIMS[i];
    assert (name + ":UP")[|name|] == ':';
  }

  /** A service-up match: the normalised name with ":UP". */
  function ServiceClaim(entryId: string, priority: string, s: string, m: Match): (c: Claim)
    requires Shaped(ServiceUp, s, m)
    ensures Extracted(c, entryId, priority) && c.claimType == ServiceHealth
    ensures ServiceNameNormalize(Group(s, m)).Some?
    ensures c.expectedValue == ServiceNameNormalize(Group(s, m)).value + ":UP" && c.claimText == Whole(s, m)
  {
    ServiceGroupNormalizes(s, m);
    var name := ServiceNameNormalize(Group(s, m)).value;
    ServiceClaimForm(name);
    Claim(entryId, priority, ServiceHealth, Whole(s, m), name + ":UP", Unverifiable, None, Low, None)
  }

  /** An active-bug match: "bug:present", HIGH, the text capped at 120 characters. */
  function BugClaim(entryId: string, priority: string, s: string, m: Match): (c: Claim)
    requires MatchIn(s, m)
    ensures Extracted(c, entryId, priority) && c.claimType == BugActive
    ensures c.claimText == Prefix(Whole(s, m), 120)
  {
    Claim(entryId, priority, BugActive, Prefix(Whole(s, m), 120), "bug:present", Unverifiable, None, High, None)
  }

  /** A file-claim match names a file only when the captured path is longer than 4 characters. */
  function FileClaimOf(entryId: string, priority: string, s: string, m: Match): (r: Option<Claim>)
    requires MatchIn(s, m)
    ensures r.Some? <==> |Group(s, m)| > 4
    ensures r.Some? ==> Extracted(r.value, entryId, priority) && r.value.claimType == FileExists
                        && r.value.expectedValue == Group(s, m) && r.value.claimText == Prefix(Whole(s, m), 120)
  {
    if |Group(s, m)| > 4
    then Some(Claim(entryId, priority, FileExists, Prefix(Whole(s, m), 120), Group(s, m), Unverifiable, None, Low, None))
    else None
  }

  /** The claim one `finditer` match yields, if any. */
  function ClaimOfMatch(pat: Pattern, entryId: string, priority: string, s: string, m: Match): (r: Option<Claim>)
    requires Shaped(pat, s, m)
    ensures r.Some? ==> Extracted(r.value, entryId, priority) && r.value.claimType == ClaimTypeOf(pat)
    ensures pat != FileClaim ==> r.Some?
  {
    match pat
    case CommitContext => Some(CommitClaim(entryId, priority, s, m))
    case ServiceUp => Some(ServiceClaim(entryId, priority, s, m))
    case ActiveBug => Some(BugClaim(entryId, priority, s, m))
    case FileClaim => FileClaimOf(entryId, priority, s, m)
  }

  /** The claims one extraction loop appends, in match order. */
  function ClaimsOfMatches(pat: Pattern, entryId: string, priority: string, s: string, ms: seq<Match>): (cs: seq<Claim>)
    requires FoundIn(pat, s, ms)
    ensures |cs| <= |ms|
    ensures pat != FileClaim ==> |cs| == |ms|
    ensures forall k :: 0 <= k < |cs| ==> Extracted(cs[k], entryId, priority) && cs[k].claimType == ClaimTypeOf(pat)
  {
    if ms == [] then []
    else
      var last := ms[|ms| - 1];
      ClaimsOfMatches(pat, entryId, priority, s, ms[..|ms| - 1])
      + (match ClaimOfMatch(pat, entryId, priority, s, last) case Some(c) => [c] case None => [])
  }

  /** What `extract_claims` returns: commit claims, then service claims, then
    * (only in an entry with an inventory marker) bug claims, then file claims. */
  function ExtractedClaims(entryId: string, priority: string, content: string): (cs: seq<Claim>)
    ensures forall k :: 0 <= k < |cs| ==> Extracted(cs[k], entryId, priority) && ClaimWellTyped(cs[k])
    ensures forall k :: 0 <= k < |cs| && cs[k].claimType == BugActive ==> HasBugMarker(content)
  {
    FindAllShaped(CommitContext, content, 0);
    FindAllShaped(ServiceUp, content, 0);
    FindAllShaped(ActiveBug, content, 0);
    FindAllShaped(FileClaim, content, 0);
    AssembleClaims(entryId, priority, content,
                   FindAll(CommitContext, content, 0), FindAll(ServiceUp, content, 0),
                   if HasBugMarker(content) then FindAll(ActiveBug, content, 0) else [],
                   FindAll(FileClaim, content, 0))
  }

  /** The four extraction loops over their match lists, one after the other. */
  function AssembleClaims(entryId: string, priority: string, content: string,
                          commits: seq<Match>, services: seq<Match>, bugs: seq<Match>, files: seq<Match>): (cs: seq<Claim>)
    requires FoundIn(CommitContext, content, commits) && FoundIn(ServiceUp, content, services)
    requires FoundIn(ActiveBug, content, bugs) && FoundIn(FileClaim, content, files)
    ensures forall k :: 0 <= k < |cs| ==> Extracted(cs[k], entryId, priority) && ClaimWellTyped(cs[k])
    ensures forall k :: 0 <= k < |cs| && cs[k].claimType == BugActive ==> bugs != []
  {
    var a := ClaimsOfMatches(CommitContext, entryId, priority, content, commits);
    var b := ClaimsOfMatches(ServiceUp, entryId, priority, content, services);
    var c := ClaimsOfMatches(ActiveBug, entryId, priority, content, bugs);
    var d := ClaimsOfMatches(FileClaim, entryId, priority, content, files);
    BugsOnlyFromBugLoop(a, b, c, d);
    a + b + c + d
  }

  lemma BugsOnlyFromBugLoop(a: seq<Claim>, b: seq<Claim>, c: seq<Claim>, d: seq<Claim>)
    requires forall k :: 0 <= k < |a| ==> a[k].claimType != BugActive
    requires forall k :: 0 <= k < |b| ==> b[k].claimType != BugActive
    requires forall k :: 0 <= k < |d| ==> d[k].claimType != BugActive
    ensures forall k :: 0 <= k < |a + b + c + d| && (a + b + c + d)[k].claimType == BugActive ==> c != []
  {
  }

  /** The `:UP` of a service claim is what `split(":", 1)` reads back. */
  lemma ExtractedServiceStatusIsUp(c: Claim)
    requires c.expectedValue in SERVICE_CLAIMS
    ensures SplitAtColon(c.expectedValue).1 == "UP"
    ensures SplitAtColon(c.expectedValue).0 in NORMALIZED_NAMES
  {
    var v := c.expectedValue;
    var i :| 0 <= i < 4 && v == SERVICE_CLAIMS[i];
    SplitAtFirstColon(NORMALIZED_NAMES[i], "UP");
    assert v == NORMALIZED_NAMES[i] + ":" + "UP";
  }

  lemma {:induction false} SplitAtFirstColon(a: string, b: string)
    requires ':' !in a
    ensures ':' in a + ":" + b && SplitAtColon(a + ":" + b) == (a, b)
  {
    var s := a + ":" + b;
    assert s[|a|] == ':';
    if a != [] {
      assert s[1..] == a[1..] + ":" + b;
      SplitAtFirstColon(a[1..], b);
      assert [a[0]] + a[1..] == a;
    } else {
      assert s[1..] == b;
    }
  }

  /** `extract_claims`: the four `finditer` loops. */
  method ExtractClaims(entryId: string, priority: string, content: string) returns (claims: seq<Claim>)
    ensures claims == ExtractedClaims(entryId, priority, content)
  {
    var commits := FindAll(CommitContext, content, 0);
    var services := FindAll(ServiceUp, content, 0);
    var bugs := if HasBugMarker(content) then FindAll(ActiveBug, content, 0) else [];
    var files := FindAll(FileClaim, content, 0);
    FindAllShaped(CommitContext, content, 0);
    FindAllShaped(ServiceUp, content, 0);
    FindAllShaped(ActiveBug, content, 0);
    FindAllShaped(FileClaim, content, 0);
    ghost var a := ClaimsOfMatches(CommitContext, entryId, priority, content, commits);
    ghost var b := ClaimsOfMatches(ServiceUp, entryId, priority, content, services);
    ghost var c := ClaimsOfMatches(ActiveBug, entryId, priority, content, bugs);
    ghost var d := ClaimsOfMatches(FileClaim, entryId, priority, content, files);
    claims := AppendClaims([], CommitContext, entryId, priority, content, commits);
    assert claims == a;
    claims := AppendClaims(claims, ServiceUp, entryId, priority, content, services);
    assert claims == a + b;
    claims := AppendClaims(claims, ActiveBug, entryId, priority, content, bugs);
    assert claims == a + b + c;
    claims := AppendClaims(claims, FileClaim, entryId, priority, content, files);
    assert claims == AssembleClaims(entryId, priority, content, commits, services, bugs, files);
  }

  /** One `for m in pattern.finditer(content)` loop over the matches `ms`. */
  method AppendClaims(claims: seq<Claim>, pat: Pattern, entryId: string, priority: string, content: string,
                      ms: seq<Match>)
    returns (out: seq<Claim>)
    requires FoundIn(pat, content, ms)
    ensures out == claims + ClaimsOfMatches(pat, entryId, priority, content, ms)
  {
    var found: seq<Claim> := [];
    for k := 0 to |ms|
      invariant found == ClaimsOfMatches(pat, entryId, priority, content, ms[..k])
    {
      ClaimsOfMatchesSnoc(pat, entryId, priority, content, ms, k);
      var c := ClaimOfMatch(pat, entryId, priority, content, ms[k]);
      if c.Some? {
        found := found + [c.value];
      }
    }
    assert ms[..|ms|] == ms;
    out := claims + found;
  }

  lemma ClaimsOfMatchesSnoc(pat: Pattern, entryId: string, priority: string, content: string, ms: seq<Match>, k: nat)
    requires FoundIn(pat, content, ms) && k < |ms|
    ensures ClaimsOfMatches(pat, entryId, priority, content, ms[..k + 1])
         == ClaimsOfMatches(pat, entryId, priority, content, ms[..k])
            + (match ClaimOfMatch(pat, entryId, priority, content, ms[k]) case Some(c) => [c] case None => [])
  {
    assert ms[..k + 1][..k] == ms[..k];
  }

  // ─── Verification ───────────────────────────────────────────────────────────

  /** `s.split(":", 1)` of a string with a colon. */
  function SplitAtColon(s: string): (r: (string, string))
    requires ':' in s
    ensures s == r.0 + ":" + r.1 && ':' !in r.0
  {
    if s[0] == ':' then ("", s[1..])
    else
      var t := SplitAtColon(s[1..]);
      ([s[0]] + t.0, t.1)
  }

  /** `git.head_commit and git.head_commit.lower().startswith(expected.lower())`. */
  predicate HeadMatches(g: GitState, expected: string) {
    g.headCommit.Some? && g.headCommit.value != "" && StartsWith(Lower(g.headCommit.value), Lower(expected))
  }

  /** The first repository at or after `from` whose head matches. */
  function FirstHeadIndex(git: Dict<GitState>, expected: string, from: nat): (r: Option<nat>)
    requires from <= |git|
    ensures r.Some? ==> from <= r.value < |git| && HeadMatches(git[r.value].1, expected)
                        && forall j :: from <= j < r.value ==> !HeadMatches(git[j].1, expected)
    ensures r.None? ==> forall j :: from <= j < |git| ==> !HeadMatches(git[j].1, expected)
    decreases |git| - from
  {
    if from == |git| then None
    else if HeadMatches(git[from].1, expected) then Some(from)
    else FirstHeadIndex(git, expected, from + 1)
  }

  /** `str({r: g.head_commit for r, g in reality.git.items() if g.head_commit})`. */
  function HeadsRepr(git: Dict<GitState>): string {
    "{" + Join(", ", HeadItems(git)) + "}"
  }

  function HeadItems(git: Dict<GitState>): seq<string> {
    if git == [] then []
    else
      var g := git[0].1;
      (if g.headCommit.Some? && g.headCommit.value != "" then [Quoted(git[0].0) + ": " + Quoted(g.headCommit.value)] else [])
      + HeadItems(git[1..])
  }

  /** A commit claim is VERIFIED exactly when some repository's head starts with
    * it, and then the first such repository is named; otherwise it is an
    * ILLUSION of medium severity that lists every known head. */
  function VerifyGit(c: Claim, git: Dict<GitState>): (r: Claim)
    ensures SameAssertion(c, r)
    ensures r.verdict == Verified <==> exists i :: 0 <= i < |git| && HeadMatches(git[i].1, c.expectedValue)
    ensures r.verdict == Verified ==>
              exists i :: 0 <= i < |git| && HeadMatches(git[i].1, c.expectedValue)
                          && (forall j :: 0 <= j < i ==> !HeadMatches(git[j].1, c.expectedValue))
                          && r == c.(verdict := Verified, actualValue := git[i].1.headCommit,
                                     note := Some("Matches " + git[i].0 + " HEAD"))
    ensures r.verdict != Verified ==>
              r == c.(verdict := Illusion, actualValue := Some(HeadsRepr(git)), severity := Medium,
                      note := Some("Commit not found as HEAD in any known repo"))
  {
    match FirstHeadIndex(git, c.expectedValue, 0)
    case Some(i) =>
      c.(verdict := Verified, actualValue := git[i].1.headCommit, note := Some("Matches " + git[i].0 + " HEAD"))
    case None =>
      c.(verdict := Illusion, actualValue := Some(HeadsRepr(git)), severity := Medium,
         note := Some("Commit not found as HEAD in any known repo"))
  }

  function ShowOptInt(o: Option<int>): string {
    match o
    case Some(i) => IntToString(i)
    case None => "None"
  }

  function ShowOptTenths(o: Option<nat>): string {
    match o
    case Some(t) => TenthsToString(t)
    case None => "None"
  }

  function ShowOptString(o: Option<string>): string {
    match o
    case Some(s) => s
    case None => "None"
  }

  /** The service case table: absent → UNVERIFIABLE; reachable and UP, or
    * unreachable and DOWN → VERIFIED; unreachable and UP → ILLUSION (HIGH);
    * anything else → UNVERIFIABLE. */
  function VerifyService(c: Claim, services: Dict<ServiceState>): (r: Claim)
    requires ':' in c.expectedValue
    ensures SameAssertion(c, r)
    ensures var (name, status) := SplitAtColon(c.expectedValue);
            var svc := Get(services, name);
            && (svc.None? ==> r == c.(verdict := Unverifiable, note := Some("Service '" + name + "' not in scan scope")))
            && (r.verdict == Verified <==>
                  svc.Some? && ((svc.value.reachable && status == "UP") || (!svc.value.reachable && status == "DOWN")))
            && (r.verdict == Illusion <==> svc.Some? && !svc.value.reachable && status == "UP")
            && (r.verdict == Illusion ==> r.severity == High && r.note == Some("Service claimed UP but is unreachable")
                                          && r.actualValue == Some("Service DOWN: " + ShowOptString(svc.value.error)))
            && (r.verdict == Verified && svc.value.reachable ==>
                  r.actualValue == Some("HTTP " + ShowOptInt(svc.value.statusCode) + " ("
                                        + ShowOptTenths(svc.value.responseTenthsMs) + "ms)"))
            && (r.verdict == Verified && !svc.value.reachable ==>
                  r.actualValue == Some("Unreachable: " + ShowOptString(svc.value.error)))
            && (r.verdict != Illusion ==> r.severity == c.severity)
            && (svc.Some? && r.verdict != Illusion ==> r.note == c.note)
            && (r.verdict == Unverifiable ==> r.actualValue == c.actualValue)
  {
    var (name, status) := SplitAtColon(c.expectedValue);
    match Get(services, name)
    case None => c.(verdict := Unverifiable, note := Some("Service '" + name + "' not in scan scope"))
    case Some(svc) =>
      if svc.reachable && status == "UP" then
        c.(verdict := Verified,
           actualValue := Some("HTTP " + ShowOptInt(svc.statusCode) + " (" + ShowOptTenths(svc.responseTenthsMs) + "ms)"))
      else if !svc.reachable && status == "DOWN" then
        c.(verdict := Verified, actualValue := Some("Unreachable: " + ShowOptString(svc.error)))
      else if !svc.reachable && status == "UP" then
        c.(verdict := Illusion, actualValue := Some("Service DOWN: " + ShowOptString(svc.error)), severity := High,
           note := Some("Service claimed UP but is unreachable"))
      else c.(verdict := Unverifiable)
  }

  /** `fname.replace("\\", "/").lower()`. */
  function NormalizedFileName(fname: string): string {
    Lower(ReplaceChar(fname, '\\', '/'))
  }

  /** Either of the file name and the filesystem key contains the other, ignoring case. */
  predicate KeyMatches(key: string, norm: string) {
    Contains(Lower(key), norm) || Contains(norm, Lower(key))
  }

  function FirstKeyIndex(fs: Dict<bool>, norm: string, from: nat): (r: Option<nat>)
    requires from <= |fs|
    ensures r.Some? ==> from <= r.value < |fs| && KeyMatches(fs[r.value].0, norm)
                        && forall j :: from <= j < r.value ==> !KeyMatches(fs[j].0, norm)
    ensures r.None? ==> forall j :: from <= j < |fs| ==> !KeyMatches(fs[j].0, norm)
    decreases |fs| - from
  {
    if from == |fs| then None
    else if KeyMatches(fs[from].0, norm) then Some(from)
    else FirstKeyIndex(fs, norm, from + 1)
  }

  /** The first filesystem key related to the file name decides: VERIFIED when
    * that path exists, otherwise an ILLUSION of medium severity; no related key
    * leaves the claim UNVERIFIABLE. */
  function VerifyFile(c: Claim, fs: Dict<bool>): (r: Claim)
    ensures SameAssertion(c, r)
    ensures var norm := NormalizedFileName(c.expectedValue);
            && ((forall j :: 0 <= j < |fs| ==> !KeyMatches(fs[j].0, norm)) <==> r.verdict == Unverifiable)
            && (r.verdict == Unverifiable ==> r == c.(verdict := Unverifiable, note := Some("File not in known scan paths")))
            && (r.verdict != Unverifiable ==>
                  exists i :: 0 <= i < |fs| && KeyMatches(fs[i].0, norm)
                              && (forall j :: 0 <= j < i ==> !KeyMatches(fs[j].0, norm))
                              && (fs[i].1 ==> r == c.(verdict := Verified, actualValue := Some("Found: " + fs[i].0)))
                              && (!fs[i].1 ==> r == c.(verdict := Illusion, actualValue := Some("NOT found: " + fs[i].0),
                                                       severity := Medium,
                                                       note := Some("File claimed to exist but not found on filesystem"))))
  {
    match FirstKeyIndex(fs, NormalizedFileName(c.expectedValue), 0)
    case None => c.(verdict := Unverifiable, note := Some("File not in known scan paths"))
    case Some(i) =>
      if fs[i].1 then c.(verdict := Verified, actualValue := Some("Found: " + fs[i].0))
      else c.(verdict := Illusion, actualValue := Some("NOT found: " + fs[i].0), severity := Medium,
              note := Some("File claimed to exist but not found on filesystem"))
  }

  const BUG_NOTE: string := "Bug status requires code inspection or live test to verify"

  /** One iteration of `verify_claims`: the rule for the claim's type. */
  function VerifyClaim(c: Claim, reality: RealitySnapshot): (r: Claim)
    requires ClaimWellTyped(c)
    ensures SameAssertion(c, r)
    ensures c.claimType == BugActive ==> r == c.(verdict := Unverifiable, note := Some(BUG_NOTE))
    ensures r.verdict != Stale
  {
    match c.claimType
    case GitCommit => VerifyGit(c, reality.git)
    case ServiceHealth => VerifyService(c, reality.services)
    case BugActive => c.(verdict := Unverifiable, note := Some(BUG_NOTE))
    case FileExists => VerifyFile(c, reality.filesystem)
  }

  /** `verify_claims`: every claim, in order, with its verdict filled in. */
  method VerifyClaims(claims: seq<Claim>, reality: RealitySnapshot) returns (verified: seq<Claim>)
    requires forall i :: 0 <= i < |claims| ==> ClaimWellTyped(claims[i])
    ensures |verified| == |claims|
    ensures forall i :: 0 <= i < |claims| ==> verified[i] == VerifyClaim(claims[i], reality)
  {
    verified := [];
    for n := 0 to |claims|
      invariant |verified| == n
      invariant forall i :: 0 <= i < n ==> verified[i] == VerifyClaim(claims[i], reality)
    {
      var claim := claims[n];
      if claim.claimType == GitCommit {
        claim := CheckCommit(claim, reality.git);
      } else if claim.claimType == ServiceHealth {
        claim := VerifyService(claim, reality.services);
      } else if claim.claimType == BugActive {
        claim := claim.(verdict := Unverifiable, note := Some(BUG_NOTE));
      } else {
        claim := CheckFile(claim, reality.filesystem);
      }
      verified := verified + [claim];
    }
  }

  /** The `git_commit` branch: the search over the repositories, stopping at the first match. */
  method CheckCommit(c: Claim, git: Dict<GitState>) returns (claim: Claim)
    ensures claim == VerifyGit(c, git)
  {
    claim := c;
    var matched := false;
    var i := 0;
    while i < |git|
      invariant 0 <= i <= |git|
      invariant FirstHeadIndex(git, c.expectedValue, 0) == FirstHeadIndex(git, c.expectedValue, i)
    {
      if HeadMatches(git[i].1, c.expectedValue) {
        claim := claim.(verdict := Verified, actualValue := git[i].1.headCommit,
                        note := Some("Matches " + git[i].0 + " HEAD"));
        matched := true;
        break;
      }
      i := i + 1;
    }
    if !matched {
      claim := claim.(verdict := Illusion, actualValue := Some(HeadsRepr(git)), severity := Medium,
                      note := Some("Commit not found as HEAD in any known repo"));
    }
  }

  /** The `file_exists` branch: the `for ... else` over the filesystem keys. */
  method CheckFile(c: Claim, fs: Dict<bool>) returns (claim: Claim)
    ensures claim == VerifyFile(c, fs)
  {
    claim := c;
    var norm := NormalizedFileName(c.expectedValue);
    var found := false;
    var i := 0;
    while i < |fs|
      invariant 0 <= i <= |fs|
      invariant FirstKeyIndex(fs, norm, 0) == FirstKeyIndex(fs, norm, i)
    {
      if KeyMatches(fs[i].0, norm) {
        if fs[i].1 {
          claim := claim.(verdict := Verified, actualValue := Some("Found: " + fs[i].0));
        } else {
          claim := claim.(verdict := Illusion, actualValue := Some("NOT found: " + fs[i].0), severity := Medium,
                          note := Some("File claimed to exist but not found on filesystem"));
        }
        found := true;
        break;
      }
      i := i + 1;
    }
    if !found {
      claim := claim.(verdict := Unverifiable, note := Some("File not in known scan paths"));
    }
  }

  // ─── Deduplication ──────────────────────────────────────────────────────────

  type DedupKey = (ClaimType, string)

  /** The dedup key: the claim type and the first 40 characters of the expected value. */
  function KeyOf(c: Claim): (k: DedupKey)
    ensures k.0 == c.claimType
    ensures |k.1| <= 40 && |k.1| <= |c.expectedValue| && k.1 == c.expectedValue[..|k.1|]
    ensures |c.expectedValue| <= 40 ==> k.1 == c.expectedValue
  {
    (c.claimType, Prefix(c.expectedValue, 40))
  }

  /** The dedup loop from the point where the keys in `seen` are taken: a
    * claim is kept when its key is new, and its key is then taken. */
  function Dedup(cs: seq<Claim>, seen: set<DedupKey>): (r: seq<Claim>)
    ensures |r| <= |cs|
    ensures forall k :: 0 <= k < |r| ==> r[k] in cs && KeyOf(r[k]) !in seen
  {
    if cs == [] then []
    else if KeyOf(cs[0]) in seen then Dedup(cs[1..], seen)
    else [cs[0]] + Dedup(cs[1..], seen + {KeyOf(cs[0])})
  }

  /** `a` is `b` with some elements left out, order kept. */
  predicate Subsequence(a: seq<Claim>, b: seq<Claim>)
    decreases |b|
  {
    if a == [] then true
    else if b == [] then false
    else (a[0] == b[0] && Subsequence(a[1..], b[1..])) || Subsequence(a, b[1..])
  }

  lemma {:induction false} DedupSubsequence(cs: seq<Claim>, seen: set<DedupKey>)
    ensures Subsequence(Dedup(cs, seen), cs)
    decreases |cs|
  {
    if cs != [] {
      if KeyOf(cs[0]) in seen {
        DedupSubsequence(cs[1..], seen);
        SubsequenceSkip(Dedup(cs[1..], seen), cs);
      } else {
        DedupSubsequence(cs[1..], seen + {KeyOf(cs[0])});
      }
    }
  }

  lemma SubsequenceSkip(a: seq<Claim>, b: seq<Claim>)
    requires b != [] && Subsequence(a, b[1..])
    ensures Subsequence(a, b)
  {
  }

  predicate KeysDistinct(r: seq<Claim>) {
    forall i, j :: 0 <= i < j < |r| ==> KeyOf(r[i]) != KeyOf(r[j])
  }

  /** No two kept claims share a key. */
  lemma {:induction false} DedupUnique(cs: seq<Claim>, seen: set<DedupKey>)
    ensures KeysDistinct(Dedup(cs, seen))
    decreases |cs|
  {
    if cs != [] {
      var k := KeyOf(cs[0]);
      if k in seen {
        DedupUnique(cs[1..], seen);
      } else {
        var rest := Dedup(cs[1..], seen + {k});
        DedupUnique(cs[1..], seen + {k});
        var r := [cs[0]] + rest;
        assert forall j :: 0 < j < |r| ==> r[j] == rest[j - 1];
      }
    }
  }

  /** The first claim with each not-yet-seen key is kept. */
  lemma {:induction false} DedupKeepsFirst(cs: seq<Claim>, seen: set<DedupKey>, i: nat)
    requires i < |cs| && KeyOf(cs[i]) !in seen
    requires forall j :: 0 <= j < i ==> KeyOf(cs[j]) != KeyOf(cs[i])
    ensures cs[i] in Dedup(cs, seen)
    decreases |cs|
  {
    if i > 0 {
      var seen' := if KeyOf(cs[0]) in seen then seen else seen + {KeyOf(cs[0])};
      assert forall j :: 0 <= j < i - 1 ==> cs[1..][j] == cs[j + 1];
      DedupKeepsFirst(cs[1..], seen', i - 1);
    }
  }

  /** The kept keys are exactly the input keys not seen before. */
  lemma {:induction false} DedupKeySet(cs: seq<Claim>, seen: set<DedupKey>)
    ensures (set c | c in Dedup(cs, seen) :: KeyOf(c)) == (set c | c in cs :: KeyOf(c)) - seen
    decreases |cs|
  {
    if cs != [] {
      var k := KeyOf(cs[0]);
      assert (set c | c in cs :: KeyOf(c)) == {k} + (set c | c in cs[1..] :: KeyOf(c)) by {
        assert forall c :: c in cs <==> c == cs[0] || c in cs[1..];
      }
      if k in seen {
        DedupKeySet(cs[1..], seen);
      } else {
        DedupKeySet(cs[1..], seen + {k});
        var r := Dedup(cs, seen);
        var rest := Dedup(cs[1..], seen + {k});
        assert r == [cs[0]] + rest;
        assert (set c | c in r :: KeyOf(c)) == {k} + (set c | c in rest :: KeyOf(c)) by {
          assert forall c :: c in r <==> c == cs[0] || c in rest;
        }
        var tail := set c | c in cs[1..] :: KeyOf(c);
        assert {k} + (tail - (seen + {k})) == ({k} + tail) - seen;
      }
    }
  }

  /** The dedup loop of `detect_illusions`. */
  method DeduplicateClaims(all: seq<Claim>) returns (unique: seq<Claim>)
    ensures unique == Dedup(all, {})
  {
    var seen: set<DedupKey> := {};
    unique := [];
    for i := 0 to |all|
      invariant unique + Dedup(all[i..], seen) == Dedup(all, {})
    {
      var key := KeyOf(all[i]);
      assert all[i..][1..] == all[i + 1..];
      if key !in seen {
        seen := seen + {key};
        unique := unique + [all[i]];
      }
    }
  }

  // ─── Ranking ────────────────────────────────────────────────────────────────

  /** `verdict_order`: every verdict is ranked, so the fallback rank 9 never applies. */
  function VerdictRank(v: Verdict): (r: nat)
    ensures r <= 3
  {
    match v
    case Illusion => 0
    case Unverifiable => 1
    case Verified => 2
    case Stale => 3
  }

  /** `sev_order`: every severity is ranked, so the fallback rank 9 never applies. */
  function SeverityRank(s: Severity): (r: nat)
    ensures r <= 2
  {
    match s
    case High => 0
    case Medium => 1
    case Low => 2
  }

  /** The sort key `(verdict_order[c.verdict], sev_order[c.severity])`. */
  function SortKey(c: Claim): (r: (nat, nat))
    ensures r.0 <= 3 && r.1 <= 2
  {
    (VerdictRank(c.verdict), SeverityRank(c.severity))
  }

  /** Lexicographic order of sort keys. */
  predicate KeyLe(a: (nat, nat), b: (nat, nat)) {
    a.0 < b.0 || (a.0 == b.0 && a.1 <= b.1)
  }

  predicate Ranked(s: seq<Claim>) {
    forall i, j :: 0 <= i < j < |s| ==> KeyLe(SortKey(s[i]), SortKey(s[j]))
  }

  /** `x` goes before the first element whose key is not smaller than its own. */
  function Insert(x: Claim, s: seq<Claim>): (r: seq<Claim>)
    ensures |r| == |s| + 1
    ensures multiset(r) == multiset(s) + multiset{x}
  {
    if s == [] || KeyLe(SortKey(x), SortKey(s[0])) then [x] + s
    else
      assert s == [s[0]] + s[1..];
      [s[0]] + Insert(x, s[1..])
  }

  /** `sorted(claims, key=...)`: Python's sort is stable, so this is insertion
    * that keeps earlier claims ahead of later ones with an equal key. */
  function SortClaims(cs: seq<Claim>): (r: seq<Claim>)
    ensures |r| == |cs|
  {
    if cs == [] then [] else Insert(cs[0], SortClaims(cs[1..]))
  }

  lemma {:induction false} InsertRanked(x: Claim, s: seq<Claim>)
    requires Ranked(s)
    ensures Ranked(Insert(x, s))
    decreases |s|
  {
    if s != [] && !KeyLe(SortKey(x), SortKey(s[0])) {
      RankedTail(s);
      InsertRanked(x, s[1..]);
      var r := Insert(x, s[1..]);
      forall j | 0 <= j < |r|
        ensures KeyLe(SortKey(s[0]), SortKey(r[j]))
      {
        assert r[j] in multiset(r);
        if r[j] != x {
          HeadBelowRest(s, r[j]);
        }
      }
      RankedCons(s[0], r);
      assert Insert(x, s) == [s[0]] + r;
    } else if s != [] {
      forall j | 0 <= j < |s|
        ensures KeyLe(SortKey(x), SortKey(s[j]))
      {
        HeadBelowRest(s, s[j]);
      }
      RankedCons(x, s);
    } else {
      RankedCons(x, s);
    }
  }

  /** In a ranked list the head's key is below every element's. */
  lemma HeadBelowRest(s: seq<Claim>, y: Claim)
    requires s != [] && Ranked(s) && y in s
    ensures KeyLe(SortKey(s[0]), SortKey(y))
  {
    var m :| 0 <= m < |s| && s[m] == y;
    if m > 0 {
      assert KeyLe(SortKey(s[0]), SortKey(s[m]));
    }
  }

  lemma RankedTail(cs: seq<Claim>)
    requires cs != [] && Ranked(cs)
    ensures Ranked(cs[1..])
  {
    assert forall i :: 0 <= i < |cs| - 1 ==> cs[1..][i] == cs[i + 1];
  }

  lemma RankedCons(x: Claim, rest: seq<Claim>)
    requires Ranked(rest)
    requires forall j :: 0 <= j < |rest| ==> KeyLe(SortKey(x), SortKey(rest[j]))
    ensures Ranked([x] + rest)
  {
    var r := [x] + rest;
    forall i, j | 0 <= i < j < |r|
      ensures KeyLe(SortKey(r[i]), SortKey(r[j]))
    {
      assert r[j] == rest[j - 1];
      if i > 0 {
        assert r[i] == rest[i - 1];
      }
    }
  }

  /** The ranking is non-decreasing by (verdict rank, severity rank). */
  lemma {:induction false} SortRanked(cs: seq<Claim>)
    ensures Ranked(SortClaims(cs))
    decreases |cs|
  {
    if cs != [] {
      SortRanked(cs[1..]);
      InsertRanked(cs[0], SortClaims(cs[1..]));
    }
  }

  /** The ranking is a permutation of the verified claims. */
  lemma {:induction false} SortPermutes(cs: seq<Claim>)
    ensures multiset(SortClaims(cs)) == multiset(cs)
    decreases |cs|
  {
    if cs != [] {
      SortPermutes(cs[1..]);
      assert cs == [cs[0]] + cs[1..];
    }
  }

  /** The claims that share one sort key, in order. */
  function WithKey(s: seq<Claim>, key: (nat, nat)): seq<Claim> {
    if s == [] then [] else (if SortKey(s[0]) == key then [s[0]] else []) + WithKey(s[1..], key)
  }

  lemma {:induction false} InsertWithKey(x: Claim, s: seq<Claim>, key: (nat, nat))
    ensures WithKey(Insert(x, s), key) == (if SortKey(x) == key then [x] else []) + WithKey(s, key)
    decreases |s|
  {
    if s == [] || KeyLe(SortKey(x), SortKey(s[0])) {
      assert ([x] + s)[1..] == s;
    } else {
      InsertWithKey(x, s[1..], key);
      assert ([s[0]] + Insert(x, s[1..]))[1..] == Insert(x, s[1..]);
    }
  }

  /** The ranking is stable: claims with an equal key keep their relative order. */
  lemma {:induction false} SortStable(cs: seq<Claim>, key: (nat, nat))
    ensures WithKey(SortClaims(cs), key) == WithKey(cs, key)
    decreases |cs|
  {
    if cs != [] {
      SortStable(cs[1..], key);
      InsertWithKey(cs[0], SortClaims(cs[1..]), key);
    }
  }

  // ─── The detection pass ─────────────────────────────────────────────────────

  /** A guidance row `(id, priority, category, content)` from the store. */
  datatype Entry = Entry(id: string, priority: string, category: string, content: string)

  function AllClaims(entries: seq<Entry>): (cs: seq<Claim>)
    ensures forall k :: 0 <= k < |cs| ==> ClaimWellTyped(cs[k])
  {
    if entries == [] then []
    else
      var e := entries[|entries| - 1];
      AllClaims(entries[..|entries| - 1]) + ExtractedClaims(e.id, e.priority, e.content)
  }

  function VerifyAll(cs: seq<Claim>, reality: RealitySnapshot): (r: seq<Claim>)
    requires forall k :: 0 <= k < |cs| ==> ClaimWellTyped(cs[k])
    ensures |r| == |cs| && forall k :: 0 <= k < |cs| ==> r[k] == VerifyClaim(cs[k], reality)
  {
    seq(|cs|, k requires 0 <= k < |cs| => VerifyClaim(cs[k], reality))
  }

  /** `detect_illusions` over the entries the store returned: extract, dedup,
    * verify, rank. The result is ranked, a permutation of the verified unique
    * claims, and stable within each key. */
  method DetectIllusions(reality: RealitySnapshot, entries: seq<Entry>) returns (ranked: seq<Claim>)
    ensures var unique := Dedup(AllClaims(entries), {});
            ranked == SortClaims(VerifyAll(unique, reality))
    ensures Ranked(ranked)
  {
    var all := GatherClaims(entries);
    var unique := DeduplicateClaims(all);
    var verified := VerifyClaims(unique, reality);
    assert verified == VerifyAll(unique, reality);
    ranked := SortClaims(verified);
    SortRanked(verified);
  }

  /** The extraction loop: every entry's claims, entry by entry. */
  method GatherClaims(entries: seq<Entry>) returns (all: seq<Claim>)
    ensures all == AllClaims(entries)
  {
    all := [];
    for n := 0 to |entries|
      invariant all == AllClaims(entries[..n])
    {
      ghost var upTo := entries[..n + 1];
      assert upTo[..n] == entries[..n] && upTo[n] == entries[n];
      assert AllClaims(upTo) == AllClaims(entries[..n])
                                + ExtractedClaims(entries[n].id, entries[n].priority, entries[n].content);
      var claims := ExtractClaims(entries[n].id, entries[n].priority, entries[n].content);
      all := all + claims;
    }
    assert entries[..|entries|] == entries;
  }
}
