/**
 * The HTTP face of Librarian 2.0 (librarian2/api.py): a single-slot briefing
 * cache with a 60-second time-to-live, and the JSON views the endpoints
 * return. The clock is an input (`now`, in microseconds since any fixed
 * epoch), and a scan is the composition `FullScan`, `DetectIllusions`,
 * `Synthesize` over a `World` and the rows the store readers return.
 */
module Api {
  import opened Wrappers
  import opened Text
  import opened Dicts
  import Config
  import opened Scanner
  import opened Detector
  import opened Engine

  const CACHE_TTL_SECONDS: nat := 60
  const MICROS_PER_SECOND: nat := 1_000_000

  /** `(now - cached_at).total_seconds() < CACHE_TTL_SECONDS`; the age may be negative. */
  predicate Fresh(now: int, cachedAt: int) {
    now - cachedAt < CACHE_TTL_SECONDS * MICROS_PER_SECOND
  }

  /** The cache serves its slot exactly when no refresh is forced, both fields
    * are set, and the slot is younger than the time-to-live. */
  predicate Serves(force: bool, cached: Option<Briefing>, cachedAt: Option<int>, now: int) {
    !force && cached.Some? && cachedAt.Some? && Fresh(now, cachedAt.value)
  }

  /** The age test is strict: a slot exactly 60 seconds old is rescanned, one a
    * microsecond younger is served, and a clock that went backwards still hits. */
  lemma TtlBoundary(b: Briefing, t: int)
    ensures !Serves(false, Some(b), Some(t), t + 60_000_000)
    ensures Serves(false, Some(b), Some(t), t + 59_999_999)
    ensures Serves(false, Some(b), Some(t), t - 1)
    ensures forall now :: !Serves(true, Some(b), Some(t), now)
  {
  }

  /** What is known of a briefing a scan of `w` produced. */
  predicate FreshBriefing(b: Briefing, w: World, focus: seq<FocusEntry>, essence: seq<string>) {
    b.generatedAt == w.startedAt && b.scanDurationTenthsMs == w.elapsedTenthsMs
    && Keys(b.gitSummary) == Keys(Config.REPOS) && Keys(b.serviceSummary) == Keys(Config.SERVICES)
    && b.filesystemSummary == ScanFilesystem(w.pathExists)
    && b.currentFocusEntries == focus && b.essenceSnapshot == essence
    && (forall k :: 0 <= k < |b.illusions| ==> b.illusions[k].verdict == Illusion)
    && (forall k :: 0 <= k < |b.unverifiable| ==> b.unverifiable[k].verdict == Unverifiable)
    && Ranked(b.illusions) && Ranked(b.unverifiable) && b.illusionCount == |b.illusions|
  }

  /** `full_scan`, `detect_illusions` and `synthesize`, in that order. */
  method Rescan(w: World, entries: seq<Entry>, focus: seq<FocusEntry>, essence: seq<string>) returns (b: Briefing)
    ensures FreshBriefing(b, w, focus, essence)
  {
    var reality := FullScan(w);
    var claims := RankedClaims(reality, entries);
    b := BriefingFrom(reality, claims, focus, essence);
    FilterRanked(claims, Illusion);
    FilterRanked(claims, Unverifiable);
  }

  /** `detect_illusions`, seen through the ranking alone: the narrower contract
    * keeps the proof of `Rescan` small. */
  method RankedClaims(reality: RealitySnapshot, entries: seq<Entry>) returns (claims: seq<Claim>)
    ensures Ranked(claims)
  {
    claims := DetectIllusions(reality, entries);
  }

  /** `synthesize`, seen through the parts of its contract that `Rescan` states:
    * the narrower contract keeps the proof of `Rescan` small. */
  method BriefingFrom(reality: RealitySnapshot, claims: seq<Claim>, focus: seq<FocusEntry>, essence: seq<string>)
    returns (b: Briefing)
    ensures b.generatedAt == reality.scannedAt && b.scanDurationTenthsMs == reality.scanDurationTenthsMs
    ensures Keys(b.gitSummary) == Keys(reality.git) && Keys(b.serviceSummary) == Keys(reality.services)
    ensures b.filesystemSummary == reality.filesystem
    ensures b.illusions == Filter(claims, Illusion) && b.unverifiable == Filter(claims, Unverifiable)
    ensures b.illusionCount == |b.illusions|
    ensures b.currentFocusEntries == focus && b.essenceSnapshot == essence
  {
    b := Synthesize(reality, claims, focus, essence);
  }

  /** The module-global slot `_cached_briefing` / `_cached_at` of `_get_briefing`. */
  class BriefingCache {
    var cachedBriefing: Option<Briefing>
    var cachedAt: Option<int>
    /** How many scans have run; it shows that a hit does not scan. */
    ghost var scans: nat

    constructor ()
      ensures cachedBriefing == None && cachedAt == None && scans == 0
    {
      cachedBriefing := None;
      cachedAt := None;
      scans := 0;
    }

    /**
     * `_get_briefing(force_refresh)`. A hit returns the slot unchanged and does
     * not scan. A miss scans, detects and synthesizes, and stores the new
     * briefing stamped with the `now` read on entry, before the scan.
     */
    method GetBriefing(force: bool, now: int, w: World, entries: seq<Entry>,
                       focus: seq<FocusEntry>, essence: seq<string>) returns (b: Briefing)
      modifies this
      ensures old(Serves(force, cachedBriefing, cachedAt, now)) ==>
                b == old(cachedBriefing.value) && cachedBriefing == old(cachedBriefing)
                && cachedAt == old(cachedAt) && scans == old(scans)
      ensures !old(Serves(force, cachedBriefing, cachedAt, now)) ==>
                cachedBriefing == Some(b) && cachedAt == Some(now) && scans == old(scans) + 1
                && FreshBriefing(b, w, focus, essence)
      ensures cachedBriefing.Some? && cachedAt.Some?
    {
      if !force && cachedBriefing.Some? && cachedAt.Some? && Fresh(now, cachedAt.value) {
        return cachedBriefing.value;
      }
      b := Rescan(w, entries, focus, essence);
      cachedBriefing := Some(b);
      cachedAt := Some(now);
      scans := scans + 1;
    }
  }

  // ─── Endpoints ──────────────────────────────────────────────────────────────

  /** The four endpoints that read the cache. */
  datatype Endpoint = BriefingText | BriefingJson | ScanView | IllusionsView

  /** The default of the `refresh` query parameter: only `/scan` forces a rescan. */
  function DefaultRefresh(e: Endpoint): (r: bool)
    ensures r <==> e == ScanView
  {
    match e
    case BriefingText => false
    case BriefingJson => false
    case ScanView => true
    case IllusionsView => false
  }

  /** The `refresh` flag an endpoint passes on, given the query parameter if any. */
  function RefreshFlag(e: Endpoint, query: Option<bool>): (r: bool)
    ensures query.Some? ==> r == query.value
    ensures query.None? ==> (r <==> e == ScanView)
  {
    query.GetOr(DefaultRefresh(e))
  }

  /** `/health`: a constant body. */
  const HEALTH_BODY: Dict<string> := [
    ("status", "ok"),
    ("version", "2.0.0"),
    ("description", "Persistence Nervous System — Illusion Detector")
  ]

  // ─── JSON views ─────────────────────────────────────────────────────────────

  /** An illusion as `/briefing.json` shows it. */
  datatype IllusionBrief = IllusionBrief(
    claimType: string, claim: string, severity: string, actual: Option<string>, note: Option<string>)

  /** An illusion as `/illusions` shows it. */
  datatype IllusionDetail = IllusionDetail(
    claimType: string, expected: string, actual: Option<string>, severity: string,
    claim: string, note: Option<string>)

  /** An unverifiable claim as `/illusions` shows it. */
  datatype UnverifiableBrief = UnverifiableBrief(claimType: string, claim: string, note: Option<string>)

  /** The body of `/briefing.json`. */
  datatype BriefingView = BriefingView(
    generatedAt: string,
    scanDurationTenthsMs: nat,
    warningLevel: string,
    git: Dict<string>,
    services: Dict<string>,
    librarian: string,
    sapphire: string,
    filesystem: Dict<bool>,
    illusions: seq<IllusionBrief>,
    unverifiableCount: nat,
    verifiedCount: nat,
    currentFocus: seq<FocusEntry>,
    workOrder: string,
    nextAction: string,
    textReport: string)

  /** The body of `/scan`. */
  datatype ScanBody = ScanBody(
    scannedAt: string, durationTenthsMs: nat, git: Dict<string>, services: Dict<string>,
    filesystem: Dict<bool>)

  /** The body of `/illusions`. */
  datatype IllusionsBody = IllusionsBody(
    warningLevel: string, illusionCount: nat, illusions: seq<IllusionDetail>,
    unverifiable: seq<UnverifiableBrief>)

  function BriefOf(c: Claim): IllusionBrief {
    IllusionBrief(ClaimTypeName(c.claimType), c.claimText, SeverityName(c.severity), c.actualValue, c.note)
  }

  function DetailOf(c: Claim): IllusionDetail {
    IllusionDetail(ClaimTypeName(c.claimType), c.expectedValue, c.actualValue, SeverityName(c.severity),
                   c.claimText, c.note)
  }

  function UnverifiableOf(c: Claim): UnverifiableBrief {
    UnverifiableBrief(ClaimTypeName(c.claimType), c.claimText, c.note)
  }

  /** `/briefing.json`: every illusion, the counts of the other verdicts, and the
    * first five current-focus rows. */
  function BriefingBody(b: Briefing): (j: BriefingView)
    ensures |j.illusions| == |b.illusions|
    ensures forall k :: 0 <= k < |b.illusions| ==> j.illusions[k].claim == b.illusions[k].claimText
    ensures j.unverifiableCount == |b.unverifiable| && j.verifiedCount == |b.verifiedClaims|
    ensures |j.currentFocus| == if |b.currentFocusEntries| < 5 then |b.currentFocusEntries| else 5
    ensures j.currentFocus == b.currentFocusEntries[..|j.currentFocus|]
    ensures j.warningLevel == LevelName(b.warningLevel) && j.textReport == b.textReport
  {
    BriefingView(b.generatedAt, b.scanDurationTenthsMs, LevelName(b.warningLevel), b.gitSummary,
                 b.serviceSummary, b.librarianSummary, b.sapphireSummary, b.filesystemSummary,
                 seq(|b.illusions|, k requires 0 <= k < |b.illusions| => BriefOf(b.illusions[k])),
                 |b.unverifiable|, |b.verifiedClaims|, Prefix(b.currentFocusEntries, 5),
                 b.activeWorkOrder, b.nextAction, b.textReport)
  }

  /** `/scan`: the scan portion of the briefing. */
  function ScanBodyOf(b: Briefing): (j: ScanBody)
    ensures j.scannedAt == b.generatedAt && j.durationTenthsMs == b.scanDurationTenthsMs
    ensures j.git == b.gitSummary && j.services == b.serviceSummary && j.filesystem == b.filesystemSummary
  {
    ScanBody(b.generatedAt, b.scanDurationTenthsMs, b.gitSummary, b.serviceSummary, b.filesystemSummary)
  }

  /** `/illusions`: every illusion in full, and the first ten unverifiable claims. */
  function IllusionsBodyOf(b: Briefing): (j: IllusionsBody)
    ensures |j.illusions| == |b.illusions|
    ensures forall k :: 0 <= k < |b.illusions| ==>
              j.illusions[k].expected == b.illusions[k].expectedValue
              && j.illusions[k].actual == b.illusions[k].actualValue
              && j.illusions[k].claim == b.illusions[k].claimText
    ensures |j.unverifiable| == if |b.unverifiable| < 10 then |b.unverifiable| else 10
    ensures forall k :: 0 <= k < |j.unverifiable| ==> j.unverifiable[k].claim == b.unverifiable[k].claimText
    ensures j.illusionCount == b.illusionCount
  {
    var shown := Prefix(b.unverifiable, 10);
    IllusionsBody(LevelName(b.warningLevel), b.illusionCount,
                  seq(|b.illusions|, k requires 0 <= k < |b.illusions| => DetailOf(b.illusions[k])),
                  seq(|shown|, k requires 0 <= k < |shown| => UnverifiableOf(shown[k])))
  }

  /** What an endpoint returns for a briefing: the text report, or one of the JSON views. */
  datatype Response = TextResponse(text: string) | BriefingResponse(view: BriefingView)
                    | ScanResponse(scan: ScanBody) | IllusionsResponse(body: IllusionsBody)

  function ResponseFor(e: Endpoint, b: Briefing): (r: Response)
    ensures e == BriefingText ==> r == TextResponse(b.textReport)
  {
    match e
    case BriefingText => TextResponse(b.textReport)
    case BriefingJson => BriefingResponse(BriefingBody(b))
    case ScanView => ScanResponse(ScanBodyOf(b))
    case IllusionsView => IllusionsResponse(IllusionsBodyOf(b))
  }

  /** An endpoint handler: resolve `refresh`, read the cache, and project. */
  method Handle(cache: BriefingCache, e: Endpoint, query: Option<bool>, now: int, w: World,
                entries: seq<Entry>, focus: seq<FocusEntry>, essence: seq<string>) returns (r: Response)
    modifies cache
    ensures cache.cachedBriefing.Some? && r == ResponseFor(e, cache.cachedBriefing.value)
    ensures !old(Serves(RefreshFlag(e, query), cache.cachedBriefing, cache.cachedAt, now)) ==>
              cache.cachedAt == Some(now) && cache.scans == old(cache.scans) + 1
    ensures old(Serves(RefreshFlag(e, query), cache.cachedBriefing, cache.cachedAt, now)) ==>
              cache.cachedBriefing == old(cache.cachedBriefing) && cache.scans == old(cache.scans)
  {
    var b := cache.GetBriefing(RefreshFlag(e, query), now, w, entries, focus, essence);
    r := ResponseFor(e, b);
  }
}
