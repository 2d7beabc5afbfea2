/**
 * The orientation engine (librarian2/engine.py): the reality snapshot and the
 * ranked claims become one briefing — a summary line per repository and per
 * service, a three-level warning, a work order with a single next action, the
 * claims split by verdict, and a plain-text report. The two store readers that
 * supply the current-focus rows and the essence previews are parameters.
 */
module Engine {
  import opened Wrappers
  import opened Text
  import opened Dicts
  import opened Scanner
  import opened Detector

  // ─── Summary lines ──────────────────────────────────────────────────────────

  /** The `status` list of `_git_line`: one part per non-empty file list. */
  function StatusParts(g: GitState): (parts: seq<string>)
    ensures |parts| <= 3
    ensures parts == [] <==> g.staged == [] && g.modified == [] && g.untracked == []
    ensures forall k :: 0 <= k < |parts| ==> parts[k] != [] && IsDigit(parts[k][0])
  {
    (if g.staged != [] then [NatToString(|g.staged|) + " staged"] else [])
    + (if g.modified != [] then [NatToString(|g.modified|) + " modified"] else [])
    + (if g.untracked != [] then [NatToString(|g.untracked|) + " untracked"] else [])
  }

  /** "clean" exactly when the repository has no staged, modified or untracked file. */
  function CleanText(g: GitState): (r: string)
    ensures r == "clean" <==> g.staged == [] && g.modified == [] && g.untracked == []
  {
    var parts := StatusParts(g);
    if parts == [] then "clean"
    else
      JoinHead(", ", parts);
      assert !IsDigit("clean"[0]);
      Join(", ", parts)
  }

  /** The ` [ahead\tbehind]` suffix, left off when the count is missing, empty or "0\t0". */
  function AheadBehindSuffix(g: GitState): (r: string)
    ensures r == "" <==> g.aheadBehind.None? || g.aheadBehind.value == "" || g.aheadBehind.value == "0\t0"
    ensures r != "" ==> r == " [" + g.aheadBehind.value + "]"
  {
    match g.aheadBehind
    case Some(ab) => if ab != "" && ab != "0\t0" then " [" + ab + "]" else ""
    case None => ""
  }

  /** `branch or '?'`. */
  function BranchOrUnknown(branch: Option<string>): (r: string)
    ensures r == "?" <==> branch.None? || branch.value == "" || branch.value == "?"
  {
    match branch
    case Some(b) => if b != "" then b else "?"
    case None => "?"
  }

  /** `_git_line`: an unreadable repository says NOT FOUND with its error, a
    * directory without a head says so, and a readable one shows its head,
    * its branch, its file counts (or "clean") and any ahead/behind count. */
  function GitLine(name: string, g: GitState): (r: string)
    ensures StartsWith(r, name + ": ")
    ensures !g.available ==> r == name + ": NOT FOUND — " + ShowOptString(g.error)
    ensures g.available && g.headCommit.None? ==> r == name + ": not a git repo"
    ensures g.available && g.headCommit.Some? ==>
              r == name + ": " + g.headCommit.value + " (" + BranchOrUnknown(g.branch) + ", "
                   + CleanText(g) + ")" + AheadBehindSuffix(g)
  {
    var head := name + ": ";
    var line :=
      if !g.available then head + "NOT FOUND — " + ShowOptString(g.error)
      else if g.headCommit.None? then head + "not a git repo"
      else head + g.headCommit.value + " (" + BranchOrUnknown(g.branch) + ", " + CleanText(g) + ")"
           + AheadBehindSuffix(g);
    assert line[..|head|] == head;
    line
  }

  /** ` v<version>` when the reported version is truthy, else nothing. */
  function VersionSuffix(v: Option<JsonValue>): (r: string)
    ensures r == "" <==> !OptTruthy(v)
  {
    if OptTruthy(v) then " v" + ShowJson(v.value) else ""
  }

  /** `s.error or 'unreachable'`. */
  function DownReason(error: Option<string>): string {
    match error
    case Some(e) => if e != "" then e else "unreachable"
    case None => "unreachable"
  }

  /** `_svc_line`: the line shows a tick exactly for a reachable service. */
  function SvcLine(name: string, s: ServiceState): (r: string)
    ensures StartsWith(r, name + ": ")
    ensures s.reachable <==> StartsWith(r, name + ": ✓")
    ensures s.reachable ==> r == name + ": ✓ UP " + ShowOptTenths(s.responseTenthsMs) + "ms" + VersionSuffix(s.version)
    ensures !s.reachable ==> r == name + ": ✗ DOWN — " + DownReason(s.error)
  {
    var head := name + ": ";
    var line :=
      if s.reachable then head + "✓ UP " + ShowOptTenths(s.responseTenthsMs) + "ms" + VersionSuffix(s.version)
      else head + "✗ DOWN — " + DownReason(s.error);
    assert line[..|head|] == head && line[|head|] == if s.reachable then '✓' else '✗';
    assert (head + "✓")[..|head|] == head;
    line
  }

  // ─── Warning level ──────────────────────────────────────────────────────────

  datatype Level = Green | Amber | Red

  function LevelName(l: Level): string {
    match l
    case Green => "GREEN"
    case Amber => "AMBER"
    case Red => "RED"
  }

  function LevelRank(l: Level): nat {
    match l
    case Green => 0
    case Amber => 1
    case Red => 2
  }

  /** Some ILLUSION claim with severity `sev` (`any(... for c in illusions if c.verdict == ILLUSION)`). */
  function AnyIllusionOf(cs: seq<Claim>, sev: Severity): (b: bool)
    ensures b <==> exists k :: 0 <= k < |cs| && cs[k].verdict == Illusion && cs[k].severity == sev
  {
    if cs == [] then false
    else if cs[0].verdict == Illusion && cs[0].severity == sev then true
    else
      assert forall k :: 0 < k < |cs| ==> cs[k] == cs[1..][k - 1];
      AnyIllusionOf(cs[1..], sev)
  }

  /** `_warning_level`: RED for a down service or a HIGH illusion, else AMBER
    * for a MEDIUM illusion, else GREEN. */
  function WarningLevel(illusions: seq<Claim>, downSvcs: seq<string>): (l: Level)
    ensures l == Red <==> downSvcs != [] || exists k :: 0 <= k < |illusions| && illusions[k].verdict == Illusion
                                                        && illusions[k].severity == High
    ensures l == Amber <==> downSvcs == []
                            && (forall k :: 0 <= k < |illusions| && illusions[k].verdict == Illusion
                                            ==> illusions[k].severity != High)
                            && exists k :: 0 <= k < |illusions| && illusions[k].verdict == Illusion
                                           && illusions[k].severity == Medium
    ensures l == Green <==> downSvcs == []
                            && forall k :: 0 <= k < |illusions| && illusions[k].verdict == Illusion
                                           ==> illusions[k].severity == Low
  {
    if downSvcs != [] || AnyIllusionOf(illusions, High) then Red
    else if AnyIllusionOf(illusions, Medium) then Amber
    else Green
  }

  /** One more claim never lowers the level, and a claim that is not an ILLUSION leaves it as it was. */
  lemma {:induction false} WarningLevelMonotone(cs: seq<Claim>, c: Claim, downSvcs: seq<string>)
    ensures LevelRank(WarningLevel(cs, downSvcs)) <= LevelRank(WarningLevel(cs + [c], downSvcs))
    ensures c.verdict != Illusion ==> WarningLevel(cs + [c], downSvcs) == WarningLevel(cs, downSvcs)
    ensures c.verdict == Illusion && c.severity == High ==> WarningLevel(cs + [c], downSvcs) == Red
  {
    var ext := cs + [c];
    assert forall k :: 0 <= k < |cs| ==> ext[k] == cs[k];
    assert ext[|cs|] == c;
  }

  /** A down service makes the level RED, whatever the claims. */
  lemma DownServiceIsRed(cs: seq<Claim>, downSvcs: seq<string>, name: string)
    ensures WarningLevel(cs, downSvcs + [name]) == Red
    ensures LevelRank(WarningLevel(cs, downSvcs)) <= LevelRank(WarningLevel(cs, downSvcs + [name]))
  {
    assert downSvcs + [name] != [];
  }

  // ─── Partition by verdict ───────────────────────────────────────────────────

  /** `[c for c in claims if c.verdict == v]`. */
  function Filter(cs: seq<Claim>, v: Verdict): (r: seq<Claim>)
    ensures |r| <= |cs|
    ensures forall k :: 0 <= k < |r| ==> r[k].verdict == v
    ensures forall k :: 0 <= k < |cs| && cs[k].verdict == v ==> cs[k] in r
  {
    if cs == [] then []
    else
      assert forall k :: 0 < k < |cs| ==> cs[k] == cs[1..][k - 1];
      (if cs[0].verdict == v then [cs[0]] else []) + Filter(cs[1..], v)
  }

  /** The filter keeps order: it picks a subsequence. */
  lemma {:induction false} FilterSubsequence(cs: seq<Claim>, v: Verdict)
    ensures Subsequence(Filter(cs, v), cs)
  {
    if cs != [] {
      FilterSubsequence(cs[1..], v);
      if cs[0].verdict != v {
        assert Filter(cs, v) == Filter(cs[1..], v);
        SubsequenceSkip(Filter(cs[1..], v), cs);
      } else {
        assert Filter(cs, v)[1..] == Filter(cs[1..], v);
      }
    }
  }

  /** The filters split the claims: each claim occurs in the list of its own
    * verdict as often as in the input, and in no other list. */
  lemma {:induction false} FilterPartition(cs: seq<Claim>, v: Verdict, x: Claim)
    ensures multiset(Filter(cs, v))[x] == if x.verdict == v then multiset(cs)[x] else 0
  {
    if cs != [] {
      FilterPartition(cs[1..], v, x);
      assert cs == [cs[0]] + cs[1..];
      assert Filter(cs, v) == (if cs[0].verdict == v then [cs[0]] else []) + Filter(cs[1..], v);
    }
  }

  /** Only the ILLUSION claims decide the level, so filtering first changes nothing. */
  lemma FilterKeepsLevel(cs: seq<Claim>, downSvcs: seq<string>)
    ensures WarningLevel(Filter(cs, Illusion), downSvcs) == WarningLevel(cs, downSvcs)
  {
    FilterSameIllusions(cs, High);
    FilterSameIllusions(cs, Medium);
    FilterSameIllusions(cs, Low);
  }

  lemma FilterSameIllusions(cs: seq<Claim>, sev: Severity)
    ensures var f := Filter(cs, Illusion);
            (exists k :: 0 <= k < |f| && f[k].verdict == Illusion && f[k].severity == sev)
            <==> (exists k :: 0 <= k < |cs| && cs[k].verdict == Illusion && cs[k].severity == sev)
  {
    var f := Filter(cs, Illusion);
    if exists k :: 0 <= k < |f| && f[k].verdict == Illusion && f[k].severity == sev {
      var k :| 0 <= k < |f| && f[k].verdict == Illusion && f[k].severity == sev;
      FilterMember(cs, Illusion, f[k]);
    }
  }

  lemma {:induction false} FilterMember(cs: seq<Claim>, v: Verdict, c: Claim)
    requires c in Filter(cs, v)
    ensures c in cs
  {
    if cs != [] && c != cs[0] {
      FilterMember(cs[1..], v, c);
    }
  }

  /** Filtering a ranked list leaves it ranked: each verdict's claims keep the
    * severity order of the detection pass. */
  lemma {:induction false} FilterRanked(cs: seq<Claim>, v: Verdict)
    requires Ranked(cs)
    ensures Ranked(Filter(cs, v))
  {
    if cs != [] {
      var tail := cs[1..];
      var rest := Filter(tail, v);
      RankedTail(cs);
      FilterRanked(tail, v);
      if cs[0].verdict == v {
        forall j | 0 <= j < |rest|
          ensures KeyLe(SortKey(cs[0]), SortKey(rest[j]))
        {
          FilterMember(tail, v, rest[j]);
          var m :| 0 <= m < |tail| && tail[m] == rest[j];
          assert cs[m + 1] == rest[j];
        }
        RankedCons(cs[0], rest);
        assert Filter(cs, v) == [cs[0]] + rest;
      } else {
        assert Filter(cs, v) == rest;
      }
    }
  }

  // ─── Down services ──────────────────────────────────────────────────────────

  /** `[name for name, s in reality.services.items() if not s.reachable]`. */
  function DownServices(d: Dict<ServiceState>): (r: seq<string>)
    ensures r == [] <==> forall k :: 0 <= k < |d| ==> d[k].1.reachable
  {
    if d == [] then []
    else
      assert forall k :: 0 < k < |d| ==> d[k] == d[1..][k - 1];
      (if !d[0].1.reachable then [d[0].0] else []) + DownServices(d[1..])
  }

  /** The first name listed is the first unreachable service in map order. */
  lemma {:induction false} DownServicesFirst(d: Dict<ServiceState>)
    requires DownServices(d) != []
    ensures exists i :: 0 <= i < |d| && DownServices(d)[0] == d[i].0 && !d[i].1.reachable
                        && forall j :: 0 <= j < i ==> d[j].1.reachable
  {
    if d[0].1.reachable {
      DownServicesFirst(d[1..]);
      var i :| 0 <= i < |d[1..]| && DownServices(d[1..])[0] == d[1..][i].0 && !d[1..][i].1.reachable
               && forall j :: 0 <= j < i ==> d[1..][j].1.reachable;
      assert forall j :: 0 < j <= i ==> d[j] == d[1..][j - 1];
      assert d[i + 1] == d[1..][i];
    } else {
      assert DownServices(d)[0] == d[0].0;
    }
  }

  // ─── Work order ─────────────────────────────────────────────────────────────

  const FORGE_KEY: string := "omni/path_tau/README.md"
  const PNS_KEY: string := "coach/APPENDIX_PERSISTENCE_NERVOUS_SYSTEM.md"

  // Each action is written as its first word plus the rest: the rules below
  // look only at how the text begins.
  const DEFAULT_ACTION: string := "Review" + " current focus entries in Librarian and orient to system state."
  const FORGE_ACTION: string :=
    "Download" + " path_tau_scaffold.ps1 from Telegram (~msg 622), execute, commit to omni-os-blueprint"
  const PNS_ACTION: string :=
    "Commit" + " APPENDIX_PERSISTENCE_NERVOUS_SYSTEM.md to cloudeye-coach (file in Telegram msg 639)"
  const PROCEED_ACTION: string := "Proceed" + " with current focus: LXR-5 bridge bug fix (4 SQL errors)"

  function InvestigateAction(service: string): string {
    "Investigate why " + service + " is unreachable — check Railway logs"
  }

  /** One line of the work order. */
  datatype WorkItem =
    | ServicesDown(names: seq<string>)
    | HighIllusion(claim: Claim)
    | UntrackedHeader(count: nat)
    | UntrackedFile(name: string)
    | ForgeMissing
    | PnsMissing
    | AllClear

  function RenderWorkItem(item: WorkItem): string {
    match item
    case ServicesDown(names) => "⚠ CRITICAL: Services unreachable: " + Join(", ", names)
    case HighIllusion(c) =>
      "⚠ ILLUSION (" + ClaimTypeName(c.claimType) + "): " + Prefix(c.claimText, 80)
      + " → actually: " + ShowOptString(c.actualValue)
    case UntrackedHeader(n) => "🟡 " + NatToString(n) + " untracked files in coach repo — commit or discard:"
    case UntrackedFile(f) => "   " + f
    case ForgeMissing => "🟡 Bonsai Forge (Path Tau) scaffold NOT committed to omni-os-blueprint"
    case PnsMissing => "🟡 APPENDIX_PERSISTENCE_NERVOUS_SYSTEM.md not yet committed to coach repo"
    case AllClear => "✅ No critical issues detected. System appears healthy."
  }

  /** `"\n".join(lines)`: the work order text. */
  function WorkOrderText(items: seq<WorkItem>): string {
    Join("\n", seq(|items|, k requires 0 <= k < |items| => RenderWorkItem(items[k])))
  }

  /** `[c for c in illusions if c.verdict == ILLUSION and c.severity == SEVERITY_HIGH]`. */
  function HighIllusions(cs: seq<Claim>): (r: seq<Claim>)
    ensures |r| <= |cs|
    ensures forall k :: 0 <= k < |r| ==> r[k].verdict == Illusion && r[k].severity == High
    ensures r == [] <==> !exists k :: 0 <= k < |cs| && cs[k].verdict == Illusion && cs[k].severity == High
  {
    if cs == [] then []
    else
      assert forall k :: 0 < k < |cs| ==> cs[k] == cs[1..][k - 1];
      (if cs[0].verdict == Illusion && cs[0].severity == High then [cs[0]] else []) + HighIllusions(cs[1..])
  }

  /** `reality.git.get("coach")` and its untracked files, when it is there. */
  function CoachUntracked(reality: RealitySnapshot): seq<string> {
    match Get(reality.git, "coach")
    case Some(g) => g.untracked
    case None => []
  }

  /** `reality.filesystem.get(key, False)`: a missing key counts as a missing file. */
  predicate KeyFileExists(reality: RealitySnapshot, key: string) {
    GetOr(reality.filesystem, key, false)
  }

  function HighItems(cs: seq<Claim>): (items: seq<WorkItem>)
    ensures |items| == |cs| && forall k :: 0 <= k < |cs| ==> items[k] == HighIllusion(cs[k])
  {
    seq(|cs|, k requires 0 <= k < |cs| => HighIllusion(cs[k]))
  }

  function FileItems(fs: seq<string>): (items: seq<WorkItem>)
    ensures |items| == |fs| && forall k :: 0 <= k < |fs| ==> items[k] == UntrackedFile(fs[k])
  {
    seq(|fs|, k requires 0 <= k < |fs| => UntrackedFile(fs[k]))
  }

  function UntrackedItems(untracked: seq<string>): seq<WorkItem> {
    if untracked == [] then [] else [UntrackedHeader(|untracked|)] + FileItems(Prefix(untracked, 4))
  }

  /** The lines the rules of `_derive_work_order` write, in rule order: the
    * down services, at most three HIGH illusions, the coach repository's
    * untracked files (at most four named), then each missing key file. */
  function RuleItems(reality: RealitySnapshot, claims: seq<Claim>): seq<WorkItem> {
    var down := DownServices(reality.services);
    (if down != [] then [ServicesDown(down)] else [])
    + HighItems(Prefix(HighIllusions(claims), 3))
    + UntrackedItems(CoachUntracked(reality))
    + (if !KeyFileExists(reality, FORGE_KEY) then [ForgeMissing] else [])
    + (if !KeyFileExists(reality, PNS_KEY) then [PnsMissing] else [])
  }

  /** The work order: the rule lines, or the all-clear line when they are empty. */
  function WorkItems(reality: RealitySnapshot, claims: seq<Claim>): (r: seq<WorkItem>)
    ensures r != []
  {
    var lines := RuleItems(reality, claims);
    if lines == [] && DownServices(reality.services) == [] then [AllClear] else lines
  }

  /** The next action, by precedence: the first down service, then the missing
    * scaffold, then the missing appendix; when nothing at all was found, the
    * current focus; otherwise the default review. */
  function NextAction(reality: RealitySnapshot, claims: seq<Claim>): string {
    var down := DownServices(reality.services);
    if down != [] then InvestigateAction(down[0])
    else if !KeyFileExists(reality, FORGE_KEY) then FORGE_ACTION
    else if !KeyFileExists(reality, PNS_KEY) then PNS_ACTION
    else if HighIllusions(claims) == [] && CoachUntracked(reality) == [] then PROCEED_ACTION
    else DEFAULT_ACTION
  }

  /** A text whose first letter is not `R` does not start with "Review". */
  lemma NotReview(s: string)
    requires s != [] && s[0] != 'R'
    ensures !StartsWith(s, "Review")
  {
    assert "Review"[0] == 'R';
  }

  lemma DefaultIsReview()
    ensures StartsWith(DEFAULT_ACTION, "Review")
  {
    assert DEFAULT_ACTION[..6] == "Review";
  }

  /** `_derive_work_order`: the rules run in order, each appending its lines; a
    * later rule takes the single next-action slot only while it still holds
    * the default text. */
  method DeriveWorkOrder(reality: RealitySnapshot, claims: seq<Claim>) returns (items: seq<WorkItem>, nextAction: string)
    ensures items == WorkItems(reality, claims)
    ensures nextAction == NextAction(reality, claims)
  {
    items := [];
    nextAction := DEFAULT_ACTION;
    DefaultIsReview();

    var down := DownServices(reality.services);
    if down != [] {
      items := items + [ServicesDown(down)];
      nextAction := InvestigateAction(down[0]);
      NotReview(nextAction);
    }
    assert StartsWith(nextAction, "Review") <==> down == [];
    ghost var downPart := items;
    assert downPart == if down != [] then [ServicesDown(down)] else [];

    var high := HighIllusions(claims);
    items := AppendHighIllusions(items, Prefix(high, 3));
    var untracked := CoachUntracked(reality);
    items := AppendUntracked(items, untracked);
    ghost var found := items;
    assert found == downPart + HighItems(Prefix(high, 3)) + UntrackedItems(untracked);
    assert found == [] <==> down == [] && high == [] && untracked == [];

    var forge := [];
    if !KeyFileExists(reality, FORGE_KEY) {
      forge := [ForgeMissing];
      if StartsWith(nextAction, "Review") {
        nextAction := FORGE_ACTION;
        NotReview(FORGE_ACTION);
      }
    }
    items := items + forge;
    assert forge == if !KeyFileExists(reality, FORGE_KEY) then [ForgeMissing] else [];
    var pns := [];
    if !KeyFileExists(reality, PNS_KEY) {
      pns := [PnsMissing];
      if StartsWith(nextAction, "Review") {
        nextAction := PNS_ACTION;
        NotReview(PNS_ACTION);
      }
    }
    items := items + pns;
    assert pns == if !KeyFileExists(reality, PNS_KEY) then [PnsMissing] else [];
    assert items == found + forge + pns;
    assert items == RuleItems(reality, claims);
    if items == [] && down == [] {
      items := [AllClear];
      nextAction := PROCEED_ACTION;
    }
  }

  /** `for ill in high_illusions[:3]: lines.append(...)`. */
  method AppendHighIllusions(items: seq<WorkItem>, shown: seq<Claim>) returns (out: seq<WorkItem>)
    ensures out == items + HighItems(shown)
  {
    out := items;
    for k := 0 to |shown|
      invariant out == items + HighItems(shown[..k])
    {
      assert HighItems(shown[..k + 1]) == HighItems(shown[..k]) + [HighIllusion(shown[k])];
      out := out + [HighIllusion(shown[k])];
    }
    assert shown[..|shown|] == shown;
  }

  /** The untracked-files rule: a header with the count, then at most four names. */
  method AppendUntracked(items: seq<WorkItem>, untracked: seq<string>) returns (out: seq<WorkItem>)
    ensures out == items + UntrackedItems(untracked)
  {
    out := items;
    if untracked != [] {
      var header := items + [UntrackedHeader(|untracked|)];
      out := AppendFiles(header, Prefix(untracked, 4));
      assert out == items + ([UntrackedHeader(|untracked|)] + FileItems(Prefix(untracked, 4)));
    }
  }

  /** `for f in files: lines.append(...)`. */
  method AppendFiles(items: seq<WorkItem>, files: seq<string>) returns (out: seq<WorkItem>)
    ensures out == items + FileItems(files)
  {
    out := items;
    for k := 0 to |files|
      invariant out == items + FileItems(files[..k])
    {
      assert FileItems(files[..k + 1]) == FileItems(files[..k]) + [UntrackedFile(files[k])];
      out := out + [UntrackedFile(files[k])];
    }
    assert files[..|files|] == files;
  }

  // ─── What the work order promises ──────────────────────────────────────────

  /** The claims the work order names as HIGH illusions, in order. */
  function HighListed(items: seq<WorkItem>): seq<Claim> {
    if items == [] then []
    else (if items[0].HighIllusion? then [items[0].claim] else []) + HighListed(items[1..])
  }

  /** The untracked file names the work order lists, in order. */
  function FilesListed(items: seq<WorkItem>): seq<string> {
    if items == [] then []
    else (if items[0].UntrackedFile? then [items[0].name] else []) + FilesListed(items[1..])
  }

  lemma {:induction false} HighListedAppend(a: seq<WorkItem>, b: seq<WorkItem>)
    ensures HighListed(a + b) == HighListed(a) + HighListed(b)
  {
    if a != [] {
      HighListedAppend(a[1..], b);
      assert (a + b)[1..] == a[1..] + b;
    } else {
      assert a + b == b;
    }
  }

  lemma {:induction false} FilesListedAppend(a: seq<WorkItem>, b: seq<WorkItem>)
    ensures FilesListed(a + b) == FilesListed(a) + FilesListed(b)
  {
    if a != [] {
      FilesListedAppend(a[1..], b);
      assert (a + b)[1..] == a[1..] + b;
    } else {
      assert a + b == b;
    }
  }

  lemma {:induction false} HighItemsListed(cs: seq<Claim>)
    ensures HighListed(HighItems(cs)) == cs && FilesListed(HighItems(cs)) == []
  {
    if cs != [] {
      HighItemsListed(cs[1..]);
      assert HighItems(cs)[1..] == HighItems(cs[1..]);
    }
  }

  lemma {:induction false} FileItemsListed(fs: seq<string>)
    ensures FilesListed(FileItems(fs)) == fs && HighListed(FileItems(fs)) == []
  {
    if fs != [] {
      FileItemsListed(fs[1..]);
      assert FileItems(fs)[1..] == FileItems(fs[1..]);
    }
  }

  /** At most three HIGH illusions are named — the first three, in order — and
    * at most four of the coach repository's untracked files, the first four. */
  lemma WorkOrderCaps(reality: RealitySnapshot, claims: seq<Claim>)
    ensures HighListed(WorkItems(reality, claims)) == Prefix(HighIllusions(claims), 3)
    ensures FilesListed(WorkItems(reality, claims)) == Prefix(CoachUntracked(reality), 4)
    ensures |HighListed(WorkItems(reality, claims))| <= 3 && |FilesListed(WorkItems(reality, claims))| <= 4
  {
    RuleItemsListed(reality, claims);
  }

  lemma RuleItemsListed(reality: RealitySnapshot, claims: seq<Claim>)
    ensures HighListed(RuleItems(reality, claims)) == Prefix(HighIllusions(claims), 3)
    ensures FilesListed(RuleItems(reality, claims)) == Prefix(CoachUntracked(reality), 4)
  {
    var down := DownServices(reality.services);
    var a := if down != [] then [ServicesDown(down)] else [];
    var shown := Prefix(HighIllusions(claims), 3);
    var h := HighItems(shown);
    var untracked := CoachUntracked(reality);
    var u := UntrackedItems(untracked);
    var f := if !KeyFileExists(reality, FORGE_KEY) then [ForgeMissing] else [];
    var p := if !KeyFileExists(reality, PNS_KEY) then [PnsMissing] else [];
    assert RuleItems(reality, claims) == a + h + u + f + p;
    HighItemsListed(shown);
    UntrackedListed(untracked);
    if down != [] { ListedSingle(ServicesDown(down)); }
    if f != [] { ListedSingle(ForgeMissing); }
    if p != [] { ListedSingle(PnsMissing); }
    BlocksListed(a, h, u, f, p, shown, Prefix(untracked, 4));
  }

  /** Listing over the five rule blocks, when only the second names claims and only the third files. */
  lemma BlocksListed(a: seq<WorkItem>, h: seq<WorkItem>, u: seq<WorkItem>, f: seq<WorkItem>, p: seq<WorkItem>,
                     hs: seq<Claim>, fs: seq<string>)
    requires HighListed(a) == [] && FilesListed(a) == []
    requires HighListed(h) == hs && FilesListed(h) == []
    requires HighListed(u) == [] && FilesListed(u) == fs
    requires HighListed(f) == [] && FilesListed(f) == []
    requires HighListed(p) == [] && FilesListed(p) == []
    ensures HighListed(a + h + u + f + p) == hs && FilesListed(a + h + u + f + p) == fs
  {
    HighListedAppend(a, h);
    HighListedAppend(a + h, u);
    HighListedAppend(a + h + u, f);
    HighListedAppend(a + h + u + f, p);
    FilesListedAppend(a, h);
    FilesListedAppend(a + h, u);
    FilesListedAppend(a + h + u, f);
    FilesListedAppend(a + h + u + f, p);
    assert [] + hs + [] + [] + [] == hs;
    assert [] + [] + fs + [] + [] == fs;
  }

  lemma ListedSingle(item: WorkItem)
    requires !item.HighIllusion? && !item.UntrackedFile?
    ensures HighListed([item]) == [] && FilesListed([item]) == []
  {
    assert [item][1..] == [];
  }

  lemma UntrackedListed(untracked: seq<string>)
    ensures HighListed(UntrackedItems(untracked)) == []
    ensures FilesListed(UntrackedItems(untracked)) == Prefix(untracked, 4)
  {
    if untracked != [] {
      FileItemsListed(Prefix(untracked, 4));
      ListedSingle(UntrackedHeader(|untracked|));
      HighListedAppend([UntrackedHeader(|untracked|)], FileItems(Prefix(untracked, 4)));
      FilesListedAppend([UntrackedHeader(|untracked|)], FileItems(Prefix(untracked, 4)));
    }
  }

  /** Nothing is wrong: no service down, no HIGH illusion, no untracked file in
    * the coach repository, and both key files present. */
  predicate AllClearHolds(reality: RealitySnapshot, claims: seq<Claim>) {
    DownServices(reality.services) == [] && HighIllusions(claims) == [] && CoachUntracked(reality) == []
    && KeyFileExists(reality, FORGE_KEY) && KeyFileExists(reality, PNS_KEY)
  }

  /** The all-clear line, and the "proceed" action, come exactly when nothing is wrong;
    * the all-clear line is then the whole work order. */
  lemma AllClearExactly(reality: RealitySnapshot, claims: seq<Claim>)
    ensures AllClear in WorkItems(reality, claims) <==> AllClearHolds(reality, claims)
    ensures AllClearHolds(reality, claims) ==> WorkItems(reality, claims) == [AllClear]
    ensures NextAction(reality, claims) == PROCEED_ACTION <==> AllClearHolds(reality, claims)
  {
    var rules := RuleItems(reality, claims);
    var untracked := CoachUntracked(reality);
    assert AllClear !in rules by {
      var h := HighItems(Prefix(HighIllusions(claims), 3));
      assert AllClear !in h;
      if untracked != [] {
        assert AllClear !in FileItems(Prefix(untracked, 4));
      }
    }
    assert rules == [] <==> AllClearHolds(reality, claims) by {
      if untracked != [] {
        assert UntrackedItems(untracked) != [];
      }
    }
    var down := DownServices(reality.services);
    assert PROCEED_ACTION[0] == 'P';
    if down != [] {
      assert InvestigateAction(down[0])[0] == 'I';
    }
    assert FORGE_ACTION[0] == 'D' && PNS_ACTION[0] == 'C' && DEFAULT_ACTION[0] == 'R';
  }

  /** With a service down, the next action names the first unreachable service in map order. */
  lemma DownServiceTakesNextAction(reality: RealitySnapshot, claims: seq<Claim>)
    requires exists k :: 0 <= k < |reality.services| && !reality.services[k].1.reachable
    ensures exists i :: 0 <= i < |reality.services| && !reality.services[i].1.reachable
                        && (forall j :: 0 <= j < i ==> reality.services[j].1.reachable)
                        && NextAction(reality, claims) == InvestigateAction(reality.services[i].0)
    ensures ServicesDown(DownServices(reality.services)) == WorkItems(reality, claims)[0]
  {
    var down := DownServices(reality.services);
    assert down != [];
    assert NextAction(reality, claims) == InvestigateAction(down[0]);
    DownServicesFirst(reality.services);
    var rules := RuleItems(reality, claims);
    var first := [ServicesDown(down)];
    assert rules == first + HighItems(Prefix(HighIllusions(claims), 3)) + UntrackedItems(CoachUntracked(reality))
                    + (if !KeyFileExists(reality, FORGE_KEY) then [ForgeMissing] else [])
                    + (if !KeyFileExists(reality, PNS_KEY) then [PnsMissing] else []);
    assert rules[0] == ServicesDown(down);
    assert WorkItems(reality, claims) == rules;
  }

  // ─── The briefing ───────────────────────────────────────────────────────────

  /** A current-focus row as the store reader returns it (`dict(row)`, values
    * shown as text), or `{"error": ...}` when the read failed. */
  type FocusEntry = Dict<string>

  predicate IsErrorEntry(e: FocusEntry) {
    "error" in Keys(e)
  }

  /** `OrientationBriefing`. */
  datatype Briefing = Briefing(
    generatedAt: string,
    scanDurationTenthsMs: nat,
    gitSummary: Dict<string>,
    serviceSummary: Dict<string>,
    librarianSummary: string,
    sapphireSummary: string,
    filesystemSummary: Dict<bool>,
    illusions: seq<Claim>,
    unverifiable: seq<Claim>,
    verifiedClaims: seq<Claim>,
    illusionCount: nat,
    warningLevel: Level,
    currentFocusEntries: seq<FocusEntry>,
    essenceSnapshot: seq<string>,
    activeWorkOrder: string,
    nextAction: string,
    textReport: string)

  // ─── Text report ────────────────────────────────────────────────────────────

  /** One line of the text report. */
  datatype ReportLine =
    | Banner(timestamp: string, scanMs: nat)
    | Blank
    | Rule(title: string, gap: bool)
    | Plain(text: string)
    | KeyFileLine(name: string, present: bool)
    | NoIllusions
    | IllusionLine(claim: Claim)
    | ActualLine(actual: string)
    | UnverifiableHeader(count: nat)
    | UnverifiableLine(claim: Claim)
    | NoteLine(note: string)
    | FocusHeading(shown: nat)
    | FocusHead(entry: FocusEntry)
    | FocusPreview(entry: FocusEntry)

  function RenderLine(l: ReportLine): string {
    match l
    case Banner(ts, ms) => "LIBRARIAN 2.0 — ORIENTATION BRIEFING\n" + ts + " UTC    scan: " + NatToString(ms) + "ms"
    case Blank => ""
    case Rule(title, gap) => (if gap then "\n" else "") + "── " + title
    case Plain(t) => t
    case KeyFileLine(name, present) => "  " + (if present then "✓" else "✗") + " " + name
    case NoIllusions => "  ✅ No confirmed illusions detected."
    case IllusionLine(c) =>
      "  ⚠ [" + SeverityName(c.severity) + "] " + ClaimTypeName(c.claimType) + ": " + Prefix(c.claimText, 70)
    case ActualLine(a) => "     actual: " + Prefix(a, 70)
    case UnverifiableHeader(n) => "\n  UNVERIFIABLE (" + NatToString(n) + " claims — require manual check):"
    case UnverifiableLine(c) => "    ? " + ClaimTypeName(c.claimType) + ": " + Prefix(c.claimText, 70)
    case NoteLine(n) => "      note: " + n
    case FocusHeading(n) => "\n── CURRENT FOCUS (latest " + NatToString(n) + ")"
    case FocusHead(e) => "\n  [" + Prefix(GetOr(e, "created_at", ""), 16) + "] [" + GetOr(e, "category", "") + "]"
    case FocusPreview(e) => "  " + Prefix(GetOr(e, "preview", ""), 300)
  }

  /** `"\n".join(lines)`. */
  function RenderReport(lines: seq<ReportLine>): string {
    Join("\n", seq(|lines|, k requires 0 <= k < |lines| => RenderLine(lines[k])))
  }

  /** A line that lists no claim and no focus entry. */
  predicate Unlisted(l: ReportLine) {
    !l.IllusionLine? && !l.UnverifiableLine? && !l.FocusHead?
  }

  /** `for _, summary in d.items(): lines.append(f"  {summary}")`. */
  function SummaryLines(d: Dict<string>): (lines: seq<ReportLine>)
    ensures |lines| == |d| && forall k :: 0 <= k < |d| ==> lines[k] == Plain("  " + d[k].1)
  {
    seq(|d|, k requires 0 <= k < |d| => Plain("  " + d[k].1))
  }

  function KeyFileLines(fs: Dict<bool>): (lines: seq<ReportLine>)
    ensures |lines| == |fs| && forall k :: 0 <= k < |fs| ==> lines[k] == KeyFileLine(fs[k].0, fs[k].1)
  {
    seq(|fs|, k requires 0 <= k < |fs| => KeyFileLine(fs[k].0, fs[k].1))
  }

  /** An illusion, and its actual value when that is non-empty. */
  function IllusionBlock(c: Claim): seq<ReportLine> {
    [IllusionLine(c)] + if c.actualValue.Some? && c.actualValue.value != "" then [ActualLine(c.actualValue.value)] else []
  }

  function IllusionLines(cs: seq<Claim>): (lines: seq<ReportLine>)
    ensures forall k :: 0 <= k < |lines| ==> lines[k].IllusionLine? || lines[k].ActualLine?
  {
    if cs == [] then [] else IllusionLines(cs[..|cs| - 1]) + IllusionBlock(cs[|cs| - 1])
  }

  /** An unverifiable claim, and its note when that is non-empty. */
  function UnverifiableBlock(c: Claim): seq<ReportLine> {
    [UnverifiableLine(c)] + if c.note.Some? && c.note.value != "" then [NoteLine(c.note.value)] else []
  }

  function UnverifiableLines(cs: seq<Claim>): (lines: seq<ReportLine>)
    ensures forall k :: 0 <= k < |lines| ==> lines[k].UnverifiableLine? || lines[k].NoteLine?
  {
    if cs == [] then [] else UnverifiableLines(cs[..|cs| - 1]) + UnverifiableBlock(cs[|cs| - 1])
  }

  /** A focus entry's two lines, or nothing for an error entry (`continue`). */
  function FocusBlock(e: FocusEntry): seq<ReportLine> {
    if IsErrorEntry(e) then [] else [FocusHead(e), FocusPreview(e)]
  }

  function FocusLines(es: seq<FocusEntry>): (lines: seq<ReportLine>)
    ensures forall k :: 0 <= k < |lines| ==> lines[k].FocusHead? || lines[k].FocusPreview?
  {
    if es == [] then [] else FocusLines(es[..|es| - 1]) + FocusBlock(es[|es| - 1])
  }

  function Timestamp(generatedAt: string): string {
    ReplaceChar(Prefix(generatedAt, 19), 'T', ' ')
  }

  /** The banner and the reality-scan section. */
  function RealitySection(b: Briefing): (lines: seq<ReportLine>)
    ensures forall k :: 0 <= k < |lines| ==> Unlisted(lines[k])
  {
    [Banner(Timestamp(b.generatedAt), TenthsRounded(b.scanDurationTenthsMs)), Blank,
     Rule("REALITY SCAN", false), Plain("GIT REPOS:")]
    + SummaryLines(b.gitSummary)
    + [Plain("\nRAILWAY SERVICES:")]
    + SummaryLines(b.serviceSummary)
    + [Plain("\nLIBRARIAN DB: " + b.librarianSummary), Plain("SAPPHIRE DB:  " + b.sapphireSummary),
       Plain("\nKEY FILES:")]
    + KeyFileLines(b.filesystemSummary)
  }

  /** The illusion section: at most six illusions, then at most four unverifiable claims. */
  function IllusionSection(b: Briefing): seq<ReportLine> {
    [Rule("ILLUSION REPORT  [" + LevelName(b.warningLevel) + "]", true)]
    + IllusionPart(b.illusions) + UnverifiablePart(b.unverifiable)
  }

  function IllusionPart(illusions: seq<Claim>): seq<ReportLine> {
    if illusions == [] then [NoIllusions] else IllusionLines(Prefix(illusions, 6))
  }

  function UnverifiablePart(unverifiable: seq<Claim>): seq<ReportLine> {
    if unverifiable == [] then []
    else [UnverifiableHeader(|unverifiable|)] + UnverifiableLines(Prefix(unverifiable, 4))
  }

  /** The work order, the next action, and at most three current-focus entries. */
  function GuidanceSection(b: Briefing): (lines: seq<ReportLine>)
    ensures forall k :: 0 <= k < |lines| ==> !lines[k].IllusionLine? && !lines[k].UnverifiableLine?
  {
    var focus := b.currentFocusEntries;
    [Rule("ACTIVE WORK ORDER", true), Plain(b.activeWorkOrder), Rule("NEXT ACTION", true),
     Plain("  → " + b.nextAction)]
    + (if focus == [] then [] else [FocusHeading(if |focus| < 3 then |focus| else 3)] + FocusLines(Prefix(focus, 3)))
  }

  /** `'═' * 68`. */
  const DOUBLE_RULE: string := "════════════════════════════════════════════════════════════════════"

  function FooterLines(): (lines: seq<ReportLine>)
    ensures forall k :: 0 <= k < |lines| ==> Unlisted(lines[k])
  {
    [Plain("\n" + DOUBLE_RULE),
     Plain("  The Dragon who reads this sees what is real, not what was recorded."),
     Plain(DOUBLE_RULE)]
  }

  /** The lines `_build_text_report` writes, section by section. */
  function ReportLines(b: Briefing): seq<ReportLine> {
    RealitySection(b) + IllusionSection(b) + GuidanceSection(b) + FooterLines()
  }

  /** `_build_text_report`: the sections in order, each loop appending its lines. */
  method BuildTextReport(b: Briefing) returns (report: string)
    ensures report == RenderReport(ReportLines(b))
  {
    var lines := WriteReality(b);
    lines := WriteIllusions(lines, b);
    lines := WriteGuidance(lines, b);
    lines := lines + FooterLines();
    report := RenderReport(lines);
  }

  method WriteReality(b: Briefing) returns (lines: seq<ReportLine>)
    ensures lines == RealitySection(b)
  {
    lines := [Banner(Timestamp(b.generatedAt), TenthsRounded(b.scanDurationTenthsMs)), Blank,
              Rule("REALITY SCAN", false), Plain("GIT REPOS:")];
    lines := AppendSummaries(lines, b.gitSummary);
    lines := lines + [Plain("\nRAILWAY SERVICES:")];
    lines := AppendSummaries(lines, b.serviceSummary);
    lines := lines + [Plain("\nLIBRARIAN DB: " + b.librarianSummary), Plain("SAPPHIRE DB:  " + b.sapphireSummary),
                      Plain("\nKEY FILES:")];
    lines := AppendKeyFiles(lines, b.filesystemSummary);
  }

  method WriteIllusions(lines: seq<ReportLine>, b: Briefing) returns (out: seq<ReportLine>)
    ensures out == lines + IllusionSection(b)
  {
    out := lines + [Rule("ILLUSION REPORT  [" + LevelName(b.warningLevel) + "]", true)];
    if b.illusions == [] {
      out := out + [NoIllusions];
    } else {
      out := AppendIllusions(out, Prefix(b.illusions, 6));
    }
    if b.unverifiable != [] {
      out := out + [UnverifiableHeader(|b.unverifiable|)];
      out := AppendUnverifiable(out, Prefix(b.unverifiable, 4));
    }
  }

  method WriteGuidance(lines: seq<ReportLine>, b: Briefing) returns (out: seq<ReportLine>)
    ensures out == lines + GuidanceSection(b)
  {
    out := lines + [Rule("ACTIVE WORK ORDER", true), Plain(b.activeWorkOrder), Rule("NEXT ACTION", true),
                    Plain("  → " + b.nextAction)];
    var focus := b.currentFocusEntries;
    if focus != [] {
      out := out + [FocusHeading(if |focus| < 3 then |focus| else 3)];
      out := AppendFocus(out, Prefix(focus, 3));
    }
  }

  method AppendSummaries(lines: seq<ReportLine>, d: Dict<string>) returns (out: seq<ReportLine>)
    ensures out == lines + SummaryLines(d)
  {
    out := lines;
    for k := 0 to |d|
      invariant out == lines + SummaryLines(d[..k])
    {
      assert SummaryLines(d[..k + 1]) == SummaryLines(d[..k]) + [Plain("  " + d[k].1)];
      out := out + [Plain("  " + d[k].1)];
    }
    assert d[..|d|] == d;
  }

  method AppendKeyFiles(lines: seq<ReportLine>, fs: Dict<bool>) returns (out: seq<ReportLine>)
    ensures out == lines + KeyFileLines(fs)
  {
    out := lines;
    for k := 0 to |fs|
      invariant out == lines + KeyFileLines(fs[..k])
    {
      assert KeyFileLines(fs[..k + 1]) == KeyFileLines(fs[..k]) + [KeyFileLine(fs[k].0, fs[k].1)];
      out := out + [KeyFileLine(fs[k].0, fs[k].1)];
    }
    assert fs[..|fs|] == fs;
  }

  /** `for ill in briefing.illusions[:6]`. */
  method AppendIllusions(lines: seq<ReportLine>, cs: seq<Claim>) returns (out: seq<ReportLine>)
    ensures out == lines + IllusionLines(cs)
  {
    out := lines;
    for k := 0 to |cs|
      invariant out == lines + IllusionLines(cs[..k])
    {
      assert cs[..k + 1][..k] == cs[..k];
      var c := cs[k];
      out := out + [IllusionLine(c)];
      if c.actualValue.Some? && c.actualValue.value != "" {
        out := out + [ActualLine(c.actualValue.value)];
      }
    }
    assert cs[..|cs|] == cs;
  }

  /** `for u in briefing.unverifiable[:4]`. */
  method AppendUnverifiable(lines: seq<ReportLine>, cs: seq<Claim>) returns (out: seq<ReportLine>)
    ensures out == lines + UnverifiableLines(cs)
  {
    out := lines;
    for k := 0 to |cs|
      invariant out == lines + UnverifiableLines(cs[..k])
    {
      assert cs[..k + 1][..k] == cs[..k];
      var c := cs[k];
      out := out + [UnverifiableLine(c)];
      if c.note.Some? && c.note.value != "" {
        out := out + [NoteLine(c.note.value)];
      }
    }
    assert cs[..|cs|] == cs;
  }

  /** `for entry in briefing.current_focus_entries[:3]`, skipping error entries. */
  method AppendFocus(lines: seq<ReportLine>, es: seq<FocusEntry>) returns (out: seq<ReportLine>)
    ensures out == lines + FocusLines(es)
  {
    out := lines;
    for k := 0 to |es|
      invariant out == lines + FocusLines(es[..k])
    {
      assert es[..k + 1][..k] == es[..k];
      if IsErrorEntry(es[k]) {
        continue;
      }
      out := out + [FocusHead(es[k]), FocusPreview(es[k])];
    }
    assert es[..|es|] == es;
  }

  // ─── What the report lists ──────────────────────────────────────────────────

  /** The two kinds of claim line in the report. */
  datatype Listing = Illusions | Unverifiables

  predicate ListsClaim(l: ReportLine, kind: Listing) {
    (kind == Illusions && l.IllusionLine?) || (kind == Unverifiables && l.UnverifiableLine?)
  }

  /** The claims the report's lines of one kind name, in order. */
  function ClaimsListed(lines: seq<ReportLine>, kind: Listing): seq<Claim> {
    if lines == [] then []
    else
      var l := lines[|lines| - 1];
      ClaimsListed(lines[..|lines| - 1], kind) + (if ListsClaim(l, kind) then [l.claim] else [])
  }

  /** The focus entries the report's heading lines name, in order. */
  function FocusListed(lines: seq<ReportLine>): seq<FocusEntry> {
    if lines == [] then []
    else
      var l := lines[|lines| - 1];
      FocusListed(lines[..|lines| - 1]) + (if l.FocusHead? then [l.entry] else [])
  }

  /** The entries that are not error rows, in order. */
  function NonError(es: seq<FocusEntry>): (r: seq<FocusEntry>)
    ensures |r| <= |es|
    ensures forall k :: 0 <= k < |r| ==> !IsErrorEntry(r[k])
    ensures forall e :: e in es && !IsErrorEntry(e) ==> e in r
  {
    if es == [] then []
    else NonError(es[..|es| - 1]) + (if IsErrorEntry(es[|es| - 1]) then [] else [es[|es| - 1]])
  }

  lemma {:induction false} ClaimsListedAppend(a: seq<ReportLine>, b: seq<ReportLine>, kind: Listing)
    ensures ClaimsListed(a + b, kind) == ClaimsListed(a, kind) + ClaimsListed(b, kind)
    decreases |b|
  {
    if b == [] {
      assert a + b == a;
    } else {
      assert (a + b)[..|a + b| - 1] == a + b[..|b| - 1];
      ClaimsListedAppend(a, b[..|b| - 1], kind);
    }
  }

  lemma {:induction false} FocusListedAppend(a: seq<ReportLine>, b: seq<ReportLine>)
    ensures FocusListed(a + b) == FocusListed(a) + FocusListed(b)
    decreases |b|
  {
    if b == [] {
      assert a + b == a;
    } else {
      assert (a + b)[..|a + b| - 1] == a + b[..|b| - 1];
      FocusListedAppend(a, b[..|b| - 1]);
    }
  }

  lemma SingleListed(l: ReportLine)
    ensures ClaimsListed([l], Illusions) == (if l.IllusionLine? then [l.claim] else [])
    ensures ClaimsListed([l], Unverifiables) == (if l.UnverifiableLine? then [l.claim] else [])
    ensures FocusListed([l]) == (if l.FocusHead? then [l.entry] else [])
  {
    assert [l][..0] == [];
  }

  /** Lines with no claim line among them list no claim. */
  lemma {:induction false} NoClaimsListed(lines: seq<ReportLine>)
    requires forall k :: 0 <= k < |lines| ==> !lines[k].IllusionLine? && !lines[k].UnverifiableLine?
    ensures ClaimsListed(lines, Illusions) == [] && ClaimsListed(lines, Unverifiables) == []
  {
    if lines != [] {
      NoClaimsListed(lines[..|lines| - 1]);
    }
  }

  /** Lines with no focus heading among them list no focus entry. */
  lemma {:induction false} NoFocusListed(lines: seq<ReportLine>)
    requires forall k :: 0 <= k < |lines| ==> !lines[k].FocusHead?
    ensures FocusListed(lines) == []
  {
    if lines != [] {
      NoFocusListed(lines[..|lines| - 1]);
    }
  }

  lemma IllusionBlockListed(c: Claim)
    ensures ClaimsListed(IllusionBlock(c), Illusions) == [c]
    ensures ClaimsListed(IllusionBlock(c), Unverifiables) == [] && FocusListed(IllusionBlock(c)) == []
  {
    var tail := if c.actualValue.Some? && c.actualValue.value != "" then [ActualLine(c.actualValue.value)] else [];
    SingleListed(IllusionLine(c));
    NoClaimsListed(tail);
    NoFocusListed(tail);
    ClaimsListedAppend([IllusionLine(c)], tail, Illusions);
    ClaimsListedAppend([IllusionLine(c)], tail, Unverifiables);
    FocusListedAppend([IllusionLine(c)], tail);
  }

  lemma UnverifiableBlockListed(c: Claim)
    ensures ClaimsListed(UnverifiableBlock(c), Unverifiables) == [c]
    ensures ClaimsListed(UnverifiableBlock(c), Illusions) == [] && FocusListed(UnverifiableBlock(c)) == []
  {
    var tail := if c.note.Some? && c.note.value != "" then [NoteLine(c.note.value)] else [];
    SingleListed(UnverifiableLine(c));
    NoClaimsListed(tail);
    NoFocusListed(tail);
    ClaimsListedAppend([UnverifiableLine(c)], tail, Illusions);
    ClaimsListedAppend([UnverifiableLine(c)], tail, Unverifiables);
    FocusListedAppend([UnverifiableLine(c)], tail);
  }

  /** The illusion lines name exactly the illusions given, in order, and nothing else. */
  lemma {:induction false} IllusionLinesListed(cs: seq<Claim>)
    ensures ClaimsListed(IllusionLines(cs), Illusions) == cs
    ensures ClaimsListed(IllusionLines(cs), Unverifiables) == []
    ensures FocusListed(IllusionLines(cs)) == []
  {
    if cs != [] {
      var init, c := cs[..|cs| - 1], cs[|cs| - 1];
      var prev, block := IllusionLines(init), IllusionBlock(c);
      assert IllusionLines(cs) == prev + block;
      IllusionLinesListed(init);
      IllusionBlockListed(c);
      ClaimsListedAppend(prev, block, Illusions);
      assert ClaimsListed(prev + block, Illusions) == init + [c];
      ClaimsListedAppend(prev, block, Unverifiables);
      assert ClaimsListed(prev + block, Unverifiables) == [];
      FocusListedAppend(prev, block);
      assert FocusListed(prev + block) == [];
      assert init + [c] == cs;
    }
  }

  /** The unverifiable lines name exactly the claims given, in order, and nothing else. */
  lemma {:induction false} UnverifiableLinesListed(cs: seq<Claim>)
    ensures ClaimsListed(UnverifiableLines(cs), Unverifiables) == cs
    ensures ClaimsListed(UnverifiableLines(cs), Illusions) == []
    ensures FocusListed(UnverifiableLines(cs)) == []
  {
    if cs != [] {
      var init, c := cs[..|cs| - 1], cs[|cs| - 1];
      var prev, block := UnverifiableLines(init), UnverifiableBlock(c);
      assert UnverifiableLines(cs) == prev + block;
      UnverifiableLinesListed(init);
      UnverifiableBlockListed(c);
      ClaimsListedAppend(prev, block, Unverifiables);
      assert ClaimsListed(prev + block, Unverifiables) == init + [c];
      ClaimsListedAppend(prev, block, Illusions);
      assert ClaimsListed(prev + block, Illusions) == [];
      FocusListedAppend(prev, block);
      assert FocusListed(prev + block) == [];
      assert init + [c] == cs;
    }
  }

  lemma FocusBlockListed(e: FocusEntry)
    ensures FocusListed(FocusBlock(e)) == if IsErrorEntry(e) then [] else [e]
  {
    if !IsErrorEntry(e) {
      SingleListed(FocusHead(e));
      SingleListed(FocusPreview(e));
      FocusListedAppend([FocusHead(e)], [FocusPreview(e)]);
      assert FocusBlock(e) == [FocusHead(e)] + [FocusPreview(e)];
    }
  }

  /** The focus lines name exactly the entries that are not error rows, in order. */
  lemma {:induction false} FocusLinesListed(es: seq<FocusEntry>)
    ensures FocusListed(FocusLines(es)) == NonError(es)
  {
    if es != [] {
      var init, e := es[..|es| - 1], es[|es| - 1];
      var prev, block := FocusLines(init), FocusBlock(e);
      assert FocusLines(es) == prev + block;
      FocusLinesListed(init);
      FocusBlockListed(e);
      FocusListedAppend(prev, block);
      assert NonError(es) == NonError(init) + (if IsErrorEntry(e) then [] else [e]);
    }
  }


  lemma RealitySectionListed(b: Briefing)
    ensures ClaimsListed(RealitySection(b), Illusions) == [] && ClaimsListed(RealitySection(b), Unverifiables) == []
    ensures FocusListed(RealitySection(b)) == []
  {
    NoClaimsListed(RealitySection(b));
    NoFocusListed(RealitySection(b));
  }

  lemma FooterListed()
    ensures ClaimsListed(FooterLines(), Illusions) == [] && ClaimsListed(FooterLines(), Unverifiables) == []
    ensures FocusListed(FooterLines()) == []
  {
    NoClaimsListed(FooterLines());
    NoFocusListed(FooterLines());
  }

  lemma IllusionSectionListed(b: Briefing)
    ensures ClaimsListed(IllusionSection(b), Illusions) == Prefix(b.illusions, 6)
    ensures ClaimsListed(IllusionSection(b), Unverifiables) == Prefix(b.unverifiable, 4)
    ensures FocusListed(IllusionSection(b)) == []
  {
    var head := [Rule("ILLUSION REPORT  [" + LevelName(b.warningLevel) + "]", true)];
    var ills, unvs := IllusionPart(b.illusions), UnverifiablePart(b.unverifiable);
    SingleListed(head[0]);
    IllusionPartListed(b.illusions);
    UnverifiablePartListed(b.unverifiable);
    ListedJoin(head, ills);
    ListedJoin(head + ills, unvs);
  }

  lemma IllusionPartListed(illusions: seq<Claim>)
    ensures ClaimsListed(IllusionPart(illusions), Illusions) == Prefix(illusions, 6)
    ensures ClaimsListed(IllusionPart(illusions), Unverifiables) == []
    ensures FocusListed(IllusionPart(illusions)) == []
  {
    if illusions == [] {
      SingleListed(NoIllusions);
    } else {
      IllusionLinesListed(Prefix(illusions, 6));
    }
  }

  lemma UnverifiablePartListed(unverifiable: seq<Claim>)
    ensures ClaimsListed(UnverifiablePart(unverifiable), Illusions) == []
    ensures ClaimsListed(UnverifiablePart(unverifiable), Unverifiables) == Prefix(unverifiable, 4)
    ensures FocusListed(UnverifiablePart(unverifiable)) == []
  {
    if unverifiable == [] {
      NoClaimsListed([]);
      NoFocusListed([]);
    } else {
      var uh := [UnverifiableHeader(|unverifiable|)];
      SingleListed(uh[0]);
      UnverifiableLinesListed(Prefix(unverifiable, 4));
      ListedJoin(uh, UnverifiableLines(Prefix(unverifiable, 4)));
    }
  }

  /** All three listings of a concatenation are the concatenations of the listings. */
  lemma ListedJoin(a: seq<ReportLine>, b: seq<ReportLine>)
    ensures ClaimsListed(a + b, Illusions) == ClaimsListed(a, Illusions) + ClaimsListed(b, Illusions)
    ensures ClaimsListed(a + b, Unverifiables) == ClaimsListed(a, Unverifiables) + ClaimsListed(b, Unverifiables)
    ensures FocusListed(a + b) == FocusListed(a) + FocusListed(b)
  {
    ClaimsListedAppend(a, b, Illusions);
    ClaimsListedAppend(a, b, Unverifiables);
    FocusListedAppend(a, b);
  }

  lemma GuidanceSectionListed(b: Briefing)
    ensures ClaimsListed(GuidanceSection(b), Illusions) == []
    ensures ClaimsListed(GuidanceSection(b), Unverifiables) == []
    ensures FocusListed(GuidanceSection(b)) == NonError(Prefix(b.currentFocusEntries, 3))
  {
    var focus := b.currentFocusEntries;
    var head := [Rule("ACTIVE WORK ORDER", true), Plain(b.activeWorkOrder), Rule("NEXT ACTION", true),
                 Plain("  → " + b.nextAction)];
    var tail := if focus == [] then [] else [FocusHeading(if |focus| < 3 then |focus| else 3)] + FocusLines(Prefix(focus, 3));
    assert GuidanceSection(b) == head + tail;
    NoClaimsListed(GuidanceSection(b));
    NoFocusListed(head);
    if focus != [] {
      var fh := [FocusHeading(if |focus| < 3 then |focus| else 3)];
      SingleListed(fh[0]);
      FocusLinesListed(Prefix(focus, 3));
      FocusListedAppend(fh, FocusLines(Prefix(focus, 3)));
    }
    FocusListedAppend(head, tail);
  }

  /** The report lists the first six illusions, the first four unverifiable
    * claims and the first three current-focus entries that are not error rows,
    * each in order, and nothing else. */
  lemma ReportListsCaps(b: Briefing)
    ensures ClaimsListed(ReportLines(b), Illusions) == Prefix(b.illusions, 6)
    ensures ClaimsListed(ReportLines(b), Unverifiables) == Prefix(b.unverifiable, 4)
    ensures FocusListed(ReportLines(b)) == NonError(Prefix(b.currentFocusEntries, 3))
  {
    var r, i, g, f := RealitySection(b), IllusionSection(b), GuidanceSection(b), FooterLines();
    RealitySectionListed(b);
    FooterListed();
    IllusionSectionListed(b);
    GuidanceSectionListed(b);
    SectionsListed(r, i, g, f, Prefix(b.illusions, 6), Prefix(b.unverifiable, 4),
                   NonError(Prefix(b.currentFocusEntries, 3)));
  }

  /** Listing over the four sections, when only the second names claims and only the third focus entries. */
  lemma SectionsListed(r: seq<ReportLine>, i: seq<ReportLine>, g: seq<ReportLine>, f: seq<ReportLine>,
                       ills: seq<Claim>, unvs: seq<Claim>, es: seq<FocusEntry>)
    requires ClaimsListed(r, Illusions) == [] && ClaimsListed(r, Unverifiables) == [] && FocusListed(r) == []
    requires ClaimsListed(i, Illusions) == ills && ClaimsListed(i, Unverifiables) == unvs && FocusListed(i) == []
    requires ClaimsListed(g, Illusions) == [] && ClaimsListed(g, Unverifiables) == [] && FocusListed(g) == es
    requires ClaimsListed(f, Illusions) == [] && ClaimsListed(f, Unverifiables) == [] && FocusListed(f) == []
    ensures ClaimsListed(r + i + g + f, Illusions) == ills
    ensures ClaimsListed(r + i + g + f, Unverifiables) == unvs
    ensures FocusListed(r + i + g + f) == es
  {
    ClaimsListedAppend(r, i, Illusions);
    ClaimsListedAppend(r + i, g, Illusions);
    ClaimsListedAppend(r + i + g, f, Illusions);
    ClaimsListedAppend(r, i, Unverifiables);
    ClaimsListedAppend(r + i, g, Unverifiables);
    ClaimsListedAppend(r + i + g, f, Unverifiables);
    FocusListedAppend(r, i);
    FocusListedAppend(r + i, g);
    FocusListedAppend(r + i + g, f);
    assert [] + ills + [] + [] == ills;
    assert [] + unvs + [] + [] == unvs;
    assert [] + [] + es + [] == es;
  }

  // ─── Synthesis ──────────────────────────────────────────────────────────────

  /** `{name: _git_line(name, g) for name, g in reality.git.items()}`. */
  function GitSummary(git: Dict<GitState>): (r: Dict<string>)
    ensures Keys(r) == Keys(git)
    ensures forall k :: 0 <= k < |r| ==> r[k].1 == GitLine(git[k].0, git[k].1)
  {
    seq(|git|, k requires 0 <= k < |git| => (git[k].0, GitLine(git[k].0, git[k].1)))
  }

  /** `{name: _svc_line(name, s) for name, s in reality.services.items()}`. */
  function ServiceSummary(services: Dict<ServiceState>): (r: Dict<string>)
    ensures Keys(r) == Keys(services)
    ensures forall k :: 0 <= k < |r| ==> r[k].1 == SvcLine(services[k].0, services[k].1)
  {
    seq(|services|, k requires 0 <= k < |services| => (services[k].0, SvcLine(services[k].0, services[k].1)))
  }

  /** A rendered integer starts with a digit or a minus sign. */
  lemma IntToStringHead(i: int)
    ensures IntToString(i) != [] && (IsDigit(IntToString(i)[0]) || IntToString(i)[0] == '-')
  {
    if i < 0 {
      assert IntToString(i)[0] == '-';
    }
  }

  lemma NotUnavailable(s: string)
    requires s != [] && s[0] != 'U'
    ensures !StartsWith(s, "UNAVAILABLE — ")
  {
    assert "UNAVAILABLE — "[0] == 'U';
  }

  /** The librarian store's summary: counts when it was readable, else "UNAVAILABLE — error". */
  function LibrarianSummary(lib: LibrarianState): (r: string)
    ensures !lib.readable <==> StartsWith(r, "UNAVAILABLE — ")
    ensures !lib.readable ==> r == "UNAVAILABLE — " + ShowOptString(lib.error)
  {
    if lib.readable then
      var count := IntToString(lib.totalGuidance);
      IntToStringHead(lib.totalGuidance);
      var line := count + " entries (" + IntToString(lib.currentFocusCount) + " focus, "
      + IntToString(lib.essenceCount) + " essence), " + TenthsToString(lib.embeddingCoverageTenthsPct) + "% embedded";
      assert line[0] == count[0];
      NotUnavailable(line);
      line
    else
      "UNAVAILABLE — " + ShowOptString(lib.error)
  }

  /** The pattern store's summary: counts when it was readable, else "UNAVAILABLE — error". */
  function SapphireSummary(sap: SapphireState): (r: string)
    ensures !sap.readable <==> StartsWith(r, "UNAVAILABLE — ")
    ensures !sap.readable ==> r == "UNAVAILABLE — " + ShowOptString(sap.error)
  {
    if sap.readable then
      var count := IntToString(sap.routingObservations);
      IntToStringHead(sap.routingObservations);
      var line := count + " observations, " + IntToString(sap.unappliedPatterns)
      + " unapplied patterns";
      assert line[0] == count[0];
      NotUnavailable(line);
      line
    else
      "UNAVAILABLE — " + ShowOptString(sap.error)
  }

  /**
   * `synthesize`: the summaries, the claims split by verdict, the warning
   * level, the work order and the text report. The current-focus rows and the
   * essence snapshot come from store readers and are taken as inputs.
   */
  method Synthesize(reality: RealitySnapshot, claims: seq<Claim>, focus: seq<FocusEntry>, essence: seq<string>)
    returns (b: Briefing)
    ensures b.generatedAt == reality.scannedAt && b.scanDurationTenthsMs == reality.scanDurationTenthsMs
    ensures b.gitSummary == GitSummary(reality.git) && b.serviceSummary == ServiceSummary(reality.services)
    ensures b.librarianSummary == LibrarianSummary(reality.librarian)
    ensures b.sapphireSummary == SapphireSummary(reality.sapphire)
    ensures b.filesystemSummary == reality.filesystem
    ensures b.illusions == Filter(claims, Illusion) && b.unverifiable == Filter(claims, Unverifiable)
    ensures b.verifiedClaims == Filter(claims, Verified)
    ensures b.illusionCount == |b.illusions|
    ensures b.warningLevel == WarningLevel(claims, DownServices(reality.services))
    ensures b.currentFocusEntries == focus && b.essenceSnapshot == essence
    ensures b.activeWorkOrder == WorkOrderText(WorkItems(reality, claims))
    ensures b.nextAction == NextAction(reality, claims)
    ensures b.textReport == RenderReport(ReportLines(b))
  {
    b := SummarizeAndOrder(reality, claims, focus, essence);
    b := AttachReport(b);
  }

  /** Every field of the briefing but the text report. */
  method SummarizeAndOrder(reality: RealitySnapshot, claims: seq<Claim>, focus: seq<FocusEntry>,
                           essence: seq<string>)
    returns (b: Briefing)
    ensures b.generatedAt == reality.scannedAt && b.scanDurationTenthsMs == reality.scanDurationTenthsMs
    ensures b.gitSummary == GitSummary(reality.git) && b.serviceSummary == ServiceSummary(reality.services)
    ensures b.librarianSummary == LibrarianSummary(reality.librarian)
    ensures b.sapphireSummary == SapphireSummary(reality.sapphire)
    ensures b.filesystemSummary == reality.filesystem
    ensures b.illusions == Filter(claims, Illusion) && b.unverifiable == Filter(claims, Unverifiable)
    ensures b.verifiedClaims == Filter(claims, Verified)
    ensures b.illusionCount == |b.illusions|
    ensures b.warningLevel == WarningLevel(claims, DownServices(reality.services))
    ensures b.currentFocusEntries == focus && b.essenceSnapshot == essence
    ensures b.activeWorkOrder == WorkOrderText(WorkItems(reality, claims))
    ensures b.nextAction == NextAction(reality, claims)
  {
    var illusions := Filter(claims, Illusion);
    var down := DownServices(reality.services);
    FilterKeepsLevel(claims, down);
    var items, nextAction := DeriveWorkOrder(reality, claims);
    b := Briefing(reality.scannedAt, reality.scanDurationTenthsMs, GitSummary(reality.git),
                  ServiceSummary(reality.services), LibrarianSummary(reality.librarian),
                  SapphireSummary(reality.sapphire), reality.filesystem, illusions,
                  Filter(claims, Unverifiable), Filter(claims, Verified), |illusions|,
                  WarningLevel(illusions, down), focus, essence, WorkOrderText(items), nextAction, "");
  }

  /** `briefing.text_report = _build_text_report(briefing)`. */
  method AttachReport(b0: Briefing) returns (b: Briefing)
    ensures b == b0.(textReport := b.textReport)
    ensures b.textReport == RenderReport(ReportLines(b))
  {
    var report := BuildTextReport(b0);
    ReportIgnoresText(b0, report);
    b := b0.(textReport := report);
  }

  /** The report is built from every field but the report itself. */
  lemma ReportIgnoresText(b: Briefing, t: string)
    ensures ReportLines(b.(textReport := t)) == ReportLines(b)
  {
    var b' := b.(textReport := t);
    assert RealitySection(b') == RealitySection(b);
    assert IllusionSection(b') == IllusionSection(b);
    assert GuidanceSection(b') == GuidanceSection(b);
  }
}
