# Librarian 2.0 orientation pipeline, in Dafny

Librarian 2.0 tells a freshly started assistant instance what is really true
about the system it joins. It works in four steps:

1. **Scan** (`librarian2/scanner.py`). It takes a *reality snapshot*: the git
   state of every known repository, the health of every deployed service, the
   existence of a few key files, and a summary of two SQLite stores.
2. **Detect illusions** (`librarian2/detector.py`). It reads recent guidance
   entries and extracts typed claims from them: a commit is HEAD, a service is
   UP, a bug is active, a file exists.
   - Each claim is checked against the snapshot and gets a verdict (VERIFIED,
     ILLUSION or UNVERIFIABLE) and a severity.
   - The claims are deduplicated, then stably ranked with illusions first.
3. **Synthesize** (`librarian2/engine.py`). It builds one briefing from the
   snapshot and the ranked claims:
   - a summary line per repository and per service;
   - a GREEN/AMBER/RED warning level;
   - a work order with a single next action;
   - the claims split by verdict;
   - a plain-text report.
4. **Serve** (`librarian2/api.py`). HTTP endpoints serve the briefing
   through a single-slot cache with a 60-second time-to-live.

The Dafny project models all four steps. It has one module per source file,
plus four helper modules:

- `Wrappers` holds Python's `Optional`.
- `Text` holds the Python string operations the code uses.
- `Dicts` models an insertion-ordered dictionary as the sequence of its items. The order matters: the first repository whose head matches wins, and so does the first down service.
- `Config` holds the constants of `librarian2/config.py`.

The outside world enters as parameters: the git subprocess, the HTTP GET, the
filesystem, both store readers, and the clock. A `World` value bundles what
one scan observes.

How the model takes each source file's form:

- **Imperative code is imperative Dafny.** This covers the `finditer` loops of
  `extract_claims`, the claim loop of `verify_claims`, the dedup loop, the
  porcelain loop of `scan_repo`, the rule chain of `_derive_work_order`, the
  append loops of `_build_text_report`, and `synthesize`'s late assignment of
  the report. Each method is proved equal to a specification function, and
  the properties are proved as lemmas about those functions.
- **The cache is a class.** `Api.BriefingCache` has two fields and a method
  that reads or overwrites them.
- **Pure code becomes functions with contracts.** This covers the service-name
  normaliser, the verdict case tables, the warning level, the summary lines
  and the projections.

The README uses a few terms of the model:

- `Extracted`: what every freshly extracted claim looks like.
- `SameAssertion`: verification changes only a claim's verdict, actual value,
  severity and note.
- `Ranked`: a list is non-decreasing by (verdict rank, severity rank).
- `WithKey`: the claims that share one sort key, in order.
- `HighListed`, `FilesListed`, `ClaimsListed` and `FocusListed`: read back
  which claims, files and focus entries a work order or report names.

## Model

| member | source | states |
|---|---|---|
| Patterns.CommitAt | librarian2/detector.py:52 | A commit-context match starts where it was asked to. Its group 1 (a hex run) ends the match. |
| Patterns.ServiceUpAt | librarian2/detector.py:54 | A service-up match starts at the service name it captures. That name, lower-cased, is one of lxr-5, coach, cloudeye-lxr and cloudeye-ui. |
| Patterns.LastUpColon | librarian2/detector.py:54 | `[^\n]*:` backtracks to the last colon on the line that an up-word follows, and the match ends after that word. |
| Patterns.BugAt | librarian2/detector.py:57 | An active-bug match runs to the end of its line, as the trailing `.*` does. |
| Patterns.ExtensionAt | librarian2/detector.py:61 | The extension alternative that matches must end at a word boundary, so "js" gives way to "jsx" and "json". |
| Patterns.PathAt | librarian2/detector.py:61 | A path token is a maximal run of path characters, then a dot and an extension, ending at a word boundary. |
| Patterns.FirstPathFrom | librarian2/detector.py:61 | The lazy `.*?` takes the first start at which a path token matches. |
| Patterns.FileClaimAt | librarian2/detector.py:61 | A file-claim match starts at its verb. Group 1 is a path token that ends the match. |
| Patterns.MatchAt | librarian2/detector.py:52-61 | A match of any of the four patterns is well-shaped for its pattern and starts where it was asked. |
| Patterns.MatcherAnchored | librarian2/detector.py:52-61 | Each pattern's matcher reports only non-empty matches that start at the asked position, inside the text. |
| Patterns.ScanKeeps | librarian2/detector.py:79-117 | Any property of every possible match holds of every match the `finditer` scan reports. |
| Patterns.ScanOrdered | librarian2/detector.py:79-117 | With an anchored matcher, the scan reports matches in order, without overlap. |
| Patterns.ScanLeftmost | librarian2/detector.py:79-117 | With an anchored matcher, nothing matches before the first reported match. |
| Patterns.FindAllShaped | librarian2/detector.py:79-117 | Every match `finditer` reports has its pattern's shape and starts at or after the search start. |
| Patterns.FindAllInOrder | librarian2/detector.py:79-117 | `finditer`'s matches are ordered and non-overlapping. |
| Patterns.FindAllLeftmost | librarian2/detector.py:79-117 | `finditer` skips no match: at no position before its first reported match does the pattern match. |
| Detector.ServiceNameNormalize | librarian2/detector.py:66-72 | The result is one of lxr-5, coach, lxr and ui. It is lxr-5 exactly when the lower-cased name contains "lxr-5" or "lxr5". It is None exactly when none of the six substrings occurs. |
| Detector.NormalizeCapturedNames | librarian2/detector.py:66-72 | Each name the service pattern can capture, in any case, normalises in check order: lxr-5 to lxr-5, coach to coach, cloudeye-lxr to lxr, cloudeye-ui to ui. |
| Detector.CommitClaim | librarian2/detector.py:79-88 | A commit claim is `Extracted`. Its expected value is the matched 7-10 digit hex token, lower-cased, and its text is the whole match. |
| Detector.ServiceGroupNormalizes | librarian2/detector.py:91-93 | Every captured service name normalises, so the `if sname` test never drops a match. |
| Detector.ServiceClaim | librarian2/detector.py:91-101 | A service claim is `Extracted`, and its expected value is the normalised name plus ":UP". |
| Detector.ServiceClaimForm | librarian2/detector.py:99 | `<name>:UP` for a normalised name is one of the service claim values and has a colon. |
| Detector.BugClaim | librarian2/detector.py:105-114 | A bug claim is `Extracted`: "bug:present", severity HIGH, and its text is the first 120 characters of the match. |
| Detector.FileClaimOf | librarian2/detector.py:117-127 | A file match yields a claim exactly when the captured name is longer than 4 characters; the claim is `Extracted`. |
| Detector.ClaimOfMatch | librarian2/detector.py:79-127 | A match yields an `Extracted` claim of its pattern's type, and every pattern but the file claim always yields one. |
| Detector.ClaimsOfMatches | librarian2/detector.py:79-127 | One loop yields at most one claim per match, exactly one for all patterns but the file claim. Every claim is `Extracted` and of the loop's type. |
| Detector.ExtractedClaims | librarian2/detector.py:75-129 | Every extracted claim is `Extracted` with the given entry id and priority, and well-typed. A bug claim occurs only when the content has an inventory marker. |
| Detector.AssembleClaims | librarian2/detector.py:75-129 | The four loops concatenated yield only `Extracted`, well-typed claims. Bug claims come only from a non-empty bug match list. |
| Detector.BugsOnlyFromBugLoop | librarian2/detector.py:103-114 | In the concatenation of the four loops' claims, a bug claim implies the bug loop produced something. |
| Detector.ExtractClaims | librarian2/detector.py:75-129 | The four `finditer` loops append exactly `ExtractedClaims`. |
| Detector.AppendClaims | librarian2/detector.py:79-88 | One `finditer` loop appends the claims of its matches, in match order. |
| Detector.ClaimsOfMatchesSnoc | librarian2/detector.py:79-88 | The claims of one more match are the earlier claims plus that match's claim. |
| Detector.SplitAtColon | librarian2/detector.py:160 | `split(":", 1)` gives a head without a colon that, joined with ":" and the tail, is the input. |
| Detector.SplitAtFirstColon | librarian2/detector.py:160 | Splitting `a:b`, with no colon in `a`, gives back `(a, b)`. |
| Detector.ExtractedServiceStatusIsUp | librarian2/detector.py:99 | Reading an extracted service claim back with `split(":", 1)` gives a normalised name and "UP". |
| Detector.FirstHeadIndex | librarian2/detector.py:143-149 | The search finds the first repository whose head matches, or reports that none does. |
| Detector.VerifyGit | librarian2/detector.py:141-156 | VERIFIED exactly when some repository's head (lower-cased) starts with the expected value; then the first such repository supplies the actual value and the note. Otherwise ILLUSION, MEDIUM, with every known head listed. Only the verdict, actual value, severity and note change. |
| Detector.CheckCommit | librarian2/detector.py:141-156 | The loop over the repositories, with `break` at the first match, computes `VerifyGit`. |
| Detector.VerifyService | librarian2/detector.py:159-177 | The service case table, both directions. A service absent from the snapshot is UNVERIFIABLE. A reachable service claimed UP, or an unreachable one claimed DOWN, is VERIFIED. An unreachable service claimed UP is an ILLUSION with severity HIGH. Anything else is UNVERIFIABLE, with each branch's actual value and note. |
| Detector.FirstKeyIndex | librarian2/detector.py:190-200 | The search finds the first filesystem key related to the name, or reports that none is. |
| Detector.VerifyFile | librarian2/detector.py:186-203 | The name gets `/` for backslashes and is lower-cased. The first key that contains it, or that it contains, decides: VERIFIED if the key's path exists, else ILLUSION, MEDIUM. The claim is UNVERIFIABLE exactly when no key matches. |
| Detector.CheckFile | librarian2/detector.py:186-203 | The `for ... else` loop over the keys computes `VerifyFile`. |
| Detector.VerifyClaim | librarian2/detector.py:138-205 | Verification changes only the verdict, actual value, severity and note. A bug claim always ends UNVERIFIABLE with its note, and no claim is ever STALE. |
| Detector.VerifyClaims | librarian2/detector.py:134-207 | The output has exactly the input's length and order, and element i is claim i verified. |
| Detector.KeyOf | librarian2/detector.py:257 | The dedup key is the claim type and the first 40 characters of the expected value (all of it when shorter). |
| Detector.Dedup | librarian2/detector.py:254-261 | The kept claims are input claims whose keys were not already seen. |
| Detector.DedupSubsequence | librarian2/detector.py:254-261 | Dedup keeps an order-preserving subsequence of its input. |
| Detector.DedupUnique | librarian2/detector.py:254-261 | No two kept claims share `(claim_type, expected_value[:40])`. |
| Detector.DedupKeepsFirst | librarian2/detector.py:254-261 | The first claim with each new key is kept. |
| Detector.DedupKeySet | librarian2/detector.py:254-261 | The kept keys are exactly the input keys, less those already seen. |
| Detector.DeduplicateClaims | librarian2/detector.py:254-261 | The loop over the `seen` set computes `Dedup` from the empty set. |
| Detector.VerdictRank | librarian2/detector.py:265-269 | Every verdict has a rank of at most 3 (ILLUSION 0, UNVERIFIABLE 1, VERIFIED 2, STALE 3), so the fallback rank 9 never applies. |
| Detector.SeverityRank | librarian2/detector.py:265-269 | Every severity has a rank of at most 2 (HIGH 0, MEDIUM 1, LOW 2), so the fallback rank 9 never applies. |
| Detector.SortKey | librarian2/detector.py:269 | The sort key is the pair of ranks, both below the fallback. |
| Detector.SortClaims | librarian2/detector.py:269 | Sorting keeps the number of claims. Its order, permutation and stability are stated by `SortRanked`, `SortPermutes` and `SortStable`. |
| Detector.Insert | librarian2/detector.py:269 | Inserting adds exactly that one claim, as a multiset. |
| Detector.InsertRanked | librarian2/detector.py:269 | Inserting into a ranked list keeps it ranked. |
| Detector.HeadBelowRest | librarian2/detector.py:269 | In a ranked list, the head's key is at most every element's key. |
| Detector.RankedTail | librarian2/detector.py:269 | The tail of a ranked list is ranked. |
| Detector.RankedCons | librarian2/detector.py:269 | A claim whose key is below every key of a ranked list can be put in front of it. |
| Detector.SortRanked | librarian2/detector.py:265-269 | The sorted list is non-decreasing by (verdict rank ILLUSION 0, UNVERIFIABLE 1, VERIFIED 2, STALE 3), then by severity rank (HIGH 0, MEDIUM 1, LOW 2). |
| Detector.SortPermutes | librarian2/detector.py:269 | The sorted list is a permutation of the verified claims. |
| Detector.InsertWithKey | librarian2/detector.py:269 | Inserting a claim puts it first among the claims with its key and leaves the other keys' claims alone. |
| Detector.SortStable | librarian2/detector.py:269 | The sort is stable: claims with an equal key keep their input order. |
| Detector.AllClaims | librarian2/detector.py:250-252 | Every claim extracted from the entries is well-typed. |
| Detector.GatherClaims | librarian2/detector.py:250-252 | The entry loop concatenates every entry's extracted claims, in entry order. |
| Detector.VerifyAll | librarian2/detector.py:263 | Verification has the input's length, and element i is claim i verified. |
| Detector.DetectIllusions | librarian2/detector.py:239-269 | The pass is extract, deduplicate, verify and sort, and its result is ranked. Permutation and stability then follow from `SortPermutes` and `SortStable`. |
| Scanner.Git | librarian2/scanner.py:88-102 | `_git` gives the runner's stdout, stripped, exactly when the runner succeeded. |
| Scanner.KindOf | librarian2/scanner.py:124-133 | Both directions for each class. A line under 2 characters is skipped. "??" is untracked. Otherwise a non-space second column is modified, else a non-space first column is staged. Two blank columns go nowhere. |
| Scanner.CollectAppend | librarian2/scanner.py:123-133 | Collecting over a concatenation concatenates the collected names. |
| Scanner.NamesOfKindCount | librarian2/scanner.py:123-133 | Each list receives exactly one name per line of its class. |
| Scanner.KindCountsSum | librarian2/scanner.py:123-133 | Every line has exactly one class. |
| Scanner.ListsPartitionLines | librarian2/scanner.py:123-133 | The three lists, plus the skipped and unchanged lines, account for every line once, so no line lands in two lists. |
| Scanner.NamesOfKindCons | librarian2/scanner.py:123-133 | The names of `[line] + rest` are the first line's name, if of the kind, then those of `rest`. |
| Scanner.NamesOfKindAppend | librarian2/scanner.py:123-133 | The names of a concatenation are the concatenated names. |
| Scanner.NamesOfSingle | librarian2/scanner.py:123-133 | A single line contributes its file name exactly when it is of the kind. |
| Scanner.EntryLineParses | librarian2/scanner.py:126-133 | A porcelain entry's printed line has no line break, its columns' class, and, via `line[3:].strip()`, its path. |
| Scanner.EntryNames | librarian2/scanner.py:123-133 | The first line of porcelain output is read back as its entry's class and path. |
| Scanner.FileName | librarian2/scanner.py:127 | The file name is empty, or it follows the first three characters and neither starts nor ends with whitespace. |
| Scanner.StatusLinesAsWritten | librarian2/scanner.py:121-123 | A failed status gives no lines. No line holds a line break. Because `_git` strips the output, the first line never starts with a blank, even when git printed a blank first status column. |
| Scanner.StatusLines | librarian2/scanner.py:121-123 | A failed status gives no lines, and no line holds a line break. The output is not stripped first. |
| Scanner.StatusRoundTrip | librarian2/scanner.py:121-133 | Read without stripping, the porcelain output of any entries gives back, for each list, exactly the paths of that class's entries, in order. |
| Scanner.AsWrittenSingleLine | librarian2/scanner.py:99 | Stripping the whole output turns " M p\n" into the single line "M p". |
| Scanner.MisreadLineNames | librarian2/scanner.py:126-133 | The line "M p" is classified staged with name `p[1..]`, and not modified. |
| Scanner.CorrectedSingleLine | librarian2/scanner.py:121-133 | Read unstripped, " M p\n" is one modified entry named `p`. |
| Scanner.StripSingleLine | librarian2/scanner.py:99 | `strip` of " M p\n" is "M p". |
| Scanner.StatusAsWrittenMisreadsFirstLine | librarian2/scanner.py:121-133 | With the output stripped as `_git` does, a first-line work-tree-only change " M p" lands in `staged` as `p[1..]`, not in `modified`. Read unstripped, it is modified `p`. |
| Scanner.ClassifyStatus | librarian2/scanner.py:122-133 | The classifying loop fills each list with exactly the names of the lines of its class, in order. |
| Scanner.RepoState | librarian2/scanner.py:104-140 | A missing path is unavailable with "Path not found: …". A failed head query is unavailable with the not-a-repository error. The repository is available exactly when the path exists and the head query succeeds. Then head and branch come from git, the three lists are the names of the stripped status output's lines of each class, and the ahead/behind text is kept when non-empty. An unavailable state has no head, no lists and a non-empty error. |
| Scanner.RepoStateMisreadsWorkTreeChange | librarian2/scanner.py:121-133 | A repository whose only change is `p` modified in the work tree is recorded, as the code is written, with `p[1..]` staged and nothing modified. |
| Scanner.ScanRepo | librarian2/scanner.py:104-140 | The probe of one repository, with its classifying loop, records exactly `RepoState`. |
| Scanner.TrimRightChar | librarian2/scanner.py:147 | `rstrip` of one character leaves a prefix that does not end in that character. |
| Scanner.HealthUrl | librarian2/scanner.py:147 | The probed URL ends in "/health", with no slash left before it unless the base was all slashes. |
| Scanner.ReportedVersion | librarian2/scanner.py:161 | The version is the first truthy value of `version`, `v` and `app_version`. When none is truthy, it is whatever `app_version` gives. |
| Scanner.ProbeService | librarian2/scanner.py:145-179 | With httpx the service is reachable exactly when a response arrived, whatever its status code. Without httpx only a 2xx response makes it reachable; any other status is unreachable with the `HTTPError` text "HTTP Error <code>: <reason>". A reachable service records the status code and latency. On an exception, the error is the exception text. Errors are cut to 120 characters. A version is reported only by the httpx path of a reachable service. |
| Scanner.RecordOutcome | librarian2/scanner.py:145-179 | The same cases as `ProbeService`, stated for any outcome of the GET: which outcomes are reachable on each client path, the recorded status and latency, the error texts and their 120-character cut, and when a version is reported. |
| Scanner.HttpErrorText | librarian2/scanner.py:166-176 | The urllib error text starts "HTTP Error ". |
| Scanner.TaskState | librarian2/scanner.py:185-189 | A gathered task that raised is an unreachable state with the exception text. Otherwise it is the probe's own state. |
| Scanner.ScanServices | librarian2/scanner.py:181-190 | There is exactly one valid state per configured service, under the configured keys, in order; each is its task's state. |
| Scanner.ScanFilesystem | librarian2/scanner.py:272-284 | The result has exactly the key-file keys, in order, each with whether its path exists. |
| Scanner.ScanRepos | librarian2/scanner.py:293 | There is exactly one git state per configured repository, in order, and it is that repository's `RepoState`. |
| Scanner.FullScan | librarian2/scanner.py:289-311 | The snapshot is stamped with the start time and the elapsed time. It has the configured repository and service keys. Each repository's state is its `RepoState`, and each service's state is its gathered task's `TaskState`. It also holds the key-file map and both store summaries. |
| Engine.StatusParts | librarian2/engine.py:53-56 | At most three parts, each starting with a count. There are none exactly when no file is staged, modified or untracked. |
| Engine.CleanText | librarian2/engine.py:57 | "clean" exactly when the repository has no staged, modified or untracked file. |
| Engine.AheadBehindSuffix | librarian2/engine.py:58 | The suffix is empty exactly when ahead/behind is missing, empty or "0\t0". Otherwise it is ` [value]`. |
| Engine.BranchOrUnknown | librarian2/engine.py:59 | The text is "?" exactly when the branch is missing, empty or itself "?". |
| Engine.GitLine | librarian2/engine.py:48-59 | An unavailable repository shows "NOT FOUND — error". A head-less one shows "not a git repo". A readable one shows head, branch, file counts or "clean", and the ahead/behind suffix. |
| Engine.VersionSuffix | librarian2/engine.py:64 | The version suffix is empty exactly when the version is not truthy. |
| Engine.SvcLine | librarian2/engine.py:62-66 | The line shows a tick exactly for a reachable service: "UP" with latency and version. An unreachable service shows "DOWN" with its error, or "unreachable". |
| Engine.AnyIllusionOf | librarian2/engine.py:161-163 | True exactly when some ILLUSION claim has the given severity. |
| Engine.WarningLevel | librarian2/engine.py:160-165 | Both directions. RED exactly when a service is down or an ILLUSION is HIGH. AMBER exactly when neither holds and an ILLUSION is MEDIUM. GREEN otherwise. |
| Engine.WarningLevelMonotone | librarian2/engine.py:160-165 | One more claim never lowers the level. A non-ILLUSION claim leaves it unchanged, and a HIGH ILLUSION makes it RED. |
| Engine.DownServiceIsRed | librarian2/engine.py:161 | One more down service makes the level RED and never lowers it. |
| Engine.Filter | librarian2/engine.py:256-258 | The filter keeps only claims of the verdict, and keeps every claim of that verdict. |
| Engine.FilterSubsequence | librarian2/engine.py:256-258 | The filter by verdict is an order-preserving subsequence. |
| Engine.FilterPartition | librarian2/engine.py:256-258 | Each claim occurs in its own verdict's list as often as in the input, and in no other list. |
| Engine.FilterKeepsLevel | librarian2/engine.py:256-261 | The warning level of the ILLUSION list equals that of all the claims. |
| Engine.FilterSameIllusions | librarian2/engine.py:256 | The ILLUSION list has the same ILLUSION claims of each severity as the input. |
| Engine.FilterMember | librarian2/engine.py:256-258 | Whatever the filter keeps is in the input. |
| Engine.FilterRanked | librarian2/engine.py:256-258 | Filtering a ranked list leaves it ranked. |
| Engine.DownServices | librarian2/engine.py:120 | There are no down services exactly when every service is reachable. |
| Engine.DownServicesFirst | librarian2/engine.py:120-123 | The first down name is an unreachable service's key. |
| Engine.HighIllusions | librarian2/engine.py:126 | The list holds only HIGH ILLUSIONs, and is empty exactly when there is none. |
| Engine.HighItems | librarian2/engine.py:128-129 | There is one illusion line per claim, in order. |
| Engine.FileItems | librarian2/engine.py:135-136 | There is one file line per name, in order. |
| Engine.DefaultIsReview | librarian2/engine.py:117 | The default next action starts with "Review". |
| Engine.NotReview | librarian2/engine.py:142-149 | A text whose first letter is not R does not start with "Review", so a later rule cannot overwrite it. |
| Engine.WorkItems | librarian2/engine.py:116-155 | The work order is never empty: all-clear when no rule wrote a line. When the all-clear line appears and when it is the whole order are stated by `AllClearExactly`. |
| Engine.RuleItems | librarian2/engine.py:119-150 | The rule lines in rule order. Which claims and files they name is stated by `RuleItemsListed`. |
| Engine.NextAction | librarian2/engine.py:117-155 | The next action by precedence. It is "Proceed" exactly when nothing is wrong (`AllClearExactly`), and with a service down it names the first down service (`DownServiceTakesNextAction`). |
| Engine.DeriveWorkOrder | librarian2/engine.py:111-157 | The rule chain's lines and next action are `WorkItems` and `NextAction`. A later rule takes the slot only while it still starts with "Review". |
| Engine.AppendHighIllusions | librarian2/engine.py:128-129 | The loop appends one line per shown HIGH illusion. |
| Engine.AppendUntracked | librarian2/engine.py:133-136 | The loop appends the count header, then at most four file names. |
| Engine.AppendFiles | librarian2/engine.py:135-136 | The loop appends one line per file name. |
| Engine.HighListedAppend | librarian2/engine.py:126-136 | The illusions named in a concatenation are the concatenated names. |
| Engine.FilesListedAppend | librarian2/engine.py:126-136 | The files named in a concatenation are the concatenated names. |
| Engine.HighItemsListed | librarian2/engine.py:128-129 | Illusion lines name exactly their claims and no file. |
| Engine.FileItemsListed | librarian2/engine.py:135-136 | File lines name exactly their files and no claim. |
| Engine.UntrackedListed | librarian2/engine.py:133-136 | The untracked block names the first four files and no claim. |
| Engine.ListedSingle | librarian2/engine.py:122-154 | A line of any other rule names no claim and no file. |
| Engine.BlocksListed | librarian2/engine.py:119-150 | Over the five rule blocks, only the illusion block names claims and only the untracked block names files. |
| Engine.RuleItemsListed | librarian2/engine.py:119-150 | The rule lines name the first three HIGH illusions and the coach repository's first four untracked files. |
| Engine.WorkOrderCaps | librarian2/engine.py:126-136 | The work order names the first three HIGH illusions in order, and only those. It names the coach repository's first four untracked files in order, and only those. |
| Engine.AllClearExactly | librarian2/engine.py:153-155 | The all-clear line, and the "Proceed" action, come exactly when no service is down, no HIGH illusion exists, coach has no untracked file and both key files exist (a missing key counts as missing). The all-clear line is then the whole work order. |
| Engine.DownServiceTakesNextAction | librarian2/engine.py:119-150 | With a service down, the first work-order line lists the down services, and the next action names the first down service in map order, which no later rule overwrites. |
| Engine.SummaryLines | librarian2/engine.py:180-185 | There is one indented line per summary, in order. |
| Engine.KeyFileLines | librarian2/engine.py:190-193 | There is one tick or cross line per key file, in order. |
| Engine.IllusionLines | librarian2/engine.py:200-203 | All the lines are illusion or actual-value lines. |
| Engine.UnverifiableLines | librarian2/engine.py:207-210 | All the lines are unverifiable or note lines. |
| Engine.FocusLines | librarian2/engine.py:222-226 | All the lines are focus headings or previews. |
| Engine.RealitySection | librarian2/engine.py:169-193 | The banner and the reality scan list no claim and no focus entry. |
| Engine.GuidanceSection | librarian2/engine.py:213-226 | The work order, next action and focus section hold no claim line. |
| Engine.FooterLines | librarian2/engine.py:228-230 | The footer lists nothing. |
| Engine.BuildTextReport | librarian2/engine.py:168-232 | `_build_text_report` joins the section lines, and the report is `RenderReport(ReportLines(b))`. |
| Engine.WriteReality | librarian2/engine.py:169-193 | The banner and reality appends give exactly `RealitySection`. |
| Engine.WriteIllusions | librarian2/engine.py:196-210 | The illusion-report appends give exactly `IllusionSection`. |
| Engine.WriteGuidance | librarian2/engine.py:213-226 | The work order, next action and focus appends give exactly `GuidanceSection`. |
| Engine.AppendSummaries | librarian2/engine.py:180-185 | The summary loop appends `SummaryLines`. |
| Engine.AppendKeyFiles | librarian2/engine.py:190-193 | The key-file loop appends `KeyFileLines`. |
| Engine.AppendIllusions | librarian2/engine.py:200-203 | The illusion loop appends `IllusionLines`. |
| Engine.AppendUnverifiable | librarian2/engine.py:207-210 | The unverifiable loop appends `UnverifiableLines`. |
| Engine.AppendFocus | librarian2/engine.py:222-226 | The focus loop appends `FocusLines`, skipping error entries. |
| Engine.NonError | librarian2/engine.py:223-224 | The result has exactly the entries without an "error" key. |
| Engine.ClaimsListedAppend | librarian2/engine.py:168-232 | The claims listed in a concatenation are the concatenated claims. |
| Engine.FocusListedAppend | librarian2/engine.py:168-232 | The focus entries listed in a concatenation are the concatenated entries. |
| Engine.ListedJoin | librarian2/engine.py:168-232 | All three listings of a concatenation are the concatenated listings. |
| Engine.SingleListed | librarian2/engine.py:168-232 | A single line lists its claim or focus entry, if it has one. |
| Engine.NoClaimsListed | librarian2/engine.py:168-232 | Lines without claim lines list no claim. |
| Engine.NoFocusListed | librarian2/engine.py:168-232 | Lines without focus headings list no focus entry. |
| Engine.IllusionBlockListed | librarian2/engine.py:201-203 | An illusion block lists exactly its claim as an illusion. |
| Engine.UnverifiableBlockListed | librarian2/engine.py:208-210 | An unverifiable block lists exactly its claim as unverifiable. |
| Engine.IllusionLinesListed | librarian2/engine.py:200-203 | The illusion lines list exactly the given illusions, in order, and nothing else. |
| Engine.UnverifiableLinesListed | librarian2/engine.py:207-210 | The unverifiable lines list exactly the given claims, in order, and nothing else. |
| Engine.FocusBlockListed | librarian2/engine.py:223-226 | A focus block lists its entry, unless the entry has an "error" key. |
| Engine.FocusLinesListed | librarian2/engine.py:222-226 | The focus lines list exactly the entries without an "error" key, in order. |
| Engine.RealitySectionListed | librarian2/engine.py:169-193 | The reality section lists nothing. |
| Engine.FooterListed | librarian2/engine.py:228-230 | The footer lists nothing. |
| Engine.IllusionPartListed | librarian2/engine.py:197-203 | The illusion part lists the first six illusions. |
| Engine.UnverifiablePartListed | librarian2/engine.py:205-210 | The unverifiable part lists the first four unverifiable claims. |
| Engine.IllusionSectionListed | librarian2/engine.py:196-210 | The illusion section lists the first six illusions and the first four unverifiable claims, in order. |
| Engine.GuidanceSectionListed | librarian2/engine.py:213-226 | The guidance section lists the non-error entries among the first three focus entries. |
| Engine.SectionsListed | librarian2/engine.py:168-232 | Over the four sections, only the illusion section lists claims and only the guidance section lists focus entries. |
| Engine.ReportListsCaps | librarian2/engine.py:168-232 | The report lists the first six illusions, the first four unverifiable claims, and the non-error entries among the first three focus entries. Each is in order, and nothing else is listed. |
| Engine.GitSummary | librarian2/engine.py:240 | The result has exactly the snapshot's repository keys, each with its `_git_line`. |
| Engine.ServiceSummary | librarian2/engine.py:241 | The result has exactly the snapshot's service keys, each with its `_svc_line`. |
| Engine.LibrarianSummary | librarian2/engine.py:243-248 | The summary starts "UNAVAILABLE — " exactly when the store was unreadable, and then carries its error. |
| Engine.SapphireSummary | librarian2/engine.py:250-254 | The summary starts "UNAVAILABLE — " exactly when the store was unreadable, and then carries its error. |
| Engine.Synthesize | librarian2/engine.py:237-288 | Every briefing field is set. The summaries are keyed like the snapshot. The illusion, unverifiable and verified lists are the order-preserving verdict filters, and the illusion count is the list's length. The warning level, work order and next action come from the rules. The text report is rendered from the briefing itself. |
| Engine.SummarizeAndOrder | librarian2/engine.py:240-285 | Every briefing field but the text report is set, as `Synthesize` states. |
| Engine.AttachReport | librarian2/engine.py:287 | Only the text report changes, and it is the report of the resulting briefing. |
| Engine.ReportIgnoresText | librarian2/engine.py:287 | The report does not depend on the old text report, so building it after construction is well defined. |
| Api.Fresh | librarian2/api.py:38 | The cached slot is younger than 60 seconds, with the age in microseconds and possibly negative. Its boundary is stated by `TtlBoundary`. |
| Api.Serves | librarian2/api.py:34-39 | The cache serves its slot exactly when no refresh is forced, both fields are set and the slot is fresh. Its boundary cases are stated by `TtlBoundary`. |
| Api.TtlBoundary | librarian2/api.py:28-39 | The age test is strict: a slot exactly 60 s old is rescanned, and one 1 µs younger is served. A clock that went backwards still hits. A forced refresh never hits. |
| Api.Rescan | librarian2/api.py:42-44 | A scan, detection and synthesis give a fresh briefing. Its summaries are keyed by the configured repositories and services. Its verdict lists are filtered and ranked, and its illusion count is right. |
| Api.RankedClaims | librarian2/api.py:43 | Detection returns ranked claims. |
| Api.BriefingFrom | librarian2/api.py:44 | Synthesis keeps the snapshot's stamps and keys, and filters the claims by verdict. |
| Api.BriefingCache.constructor | librarian2/api.py:26-27 | The module starts with an empty slot. |
| Api.BriefingCache.GetBriefing | librarian2/api.py:31-47 | On a hit (no force, slot set, younger than 60 s), the cached briefing is returned unchanged and no scan runs. Otherwise one scan runs, and the slot holds the new briefing stamped with the `now` read at entry. |
| Api.DefaultRefresh | librarian2/api.py:58-104 | Only `/scan` defaults to `refresh=True`. |
| Api.RefreshFlag | librarian2/api.py:58-104 | A given query parameter wins; otherwise the endpoint's default applies. |
| Api.BriefingBody | librarian2/api.py:64-87 | `/briefing.json` shows every illusion, the unverifiable and verified counts, the level and the report. `current_focus` is the first five entries. |
| Api.ScanBodyOf | librarian2/api.py:91-100 | `/scan` shows the briefing's time stamps, summaries and key-file map. |
| Api.IllusionsBodyOf | librarian2/api.py:104-119 | `/illusions` lists every illusion with expected and actual values, and the first ten unverifiable claims. |
| Api.ResponseFor | librarian2/api.py:56-60 | `/briefing` returns the text report. |
| Api.Handle | librarian2/api.py:56-119 | An endpoint resolves `refresh`, reads the cache and projects the cached briefing. It scans exactly when the cache misses. |

## Left out

- **SQL readers.** The database readers are inputs: `load_current_focus_entries` becomes the `entries` parameter, `_load_current_focus` and `_load_essence_snapshot` become `focus` and `essence`, and `scan_librarian` and `scan_sapphire` give `World.librarian` and `World.sapphire`. Their SQL, time cutoff and connection errors are not modelled.
- **Outside world.** The `git` subprocess, the HTTP GET (httpx or urllib), `Path.exists`, the timeouts and the clock are oracle parameters. Exception texts are strings the oracles return. The GET oracle answers with the final response after redirects, which both clients follow, including the reason phrase the server sent.
- **Concurrency.** The probes under `asyncio.gather` run one after another. Concurrency is not observable in the result, which is keyed and ordered by the configuration.
- **Floats.** Latency, scan duration and embedding coverage are rounded to one decimal in the source, and the model keeps them as whole tenths. `str()` of such a float is written out for values under 10^16, where Python switches to exponent notation.
- **Report text.** The box-drawing banner and the trailing rule characters of section headings are simplified. The model keeps each section's title, order, line kinds and caps, but not the exact widths.
- **Unused regexes.** `RE_COMMIT`, `RE_SERVICE_DOWN`, `RE_BUG_FIXED` and `RE_UNTRACKED` are defined but never used by the pipeline, so no `:DOWN` service claim is ever extracted. The DOWN branch of `VerifyService` is still modelled.
- **ASCII case folding.** Case-insensitive matching, `lower()`, `\w` and `\d` are ASCII-only. Non-ASCII letters are not case-folded.
- **Empty matches.** None of the four patterns can match empty, and the model's `finditer` relies on that. Its step past an empty match is the plain advance by one.
- **Rank fallback.** Verdicts and severities are enumerations, so the `.get(x, 9)` fallback rank for an unknown string cannot arise.
- **Claim aliasing.** `verify_claims` mutates the shared `Claim` objects in place; the model returns updated values. Nothing reads the pre-verification list afterwards, so the aliasing is not observable.
- **Unmodelled routing.** `/health` is the constant `HEALTH_BODY`. `build_router`, `mount_librarian2`, FastAPI routing, JSON serialisation, `full_scan_sync`, `run_librarian2.py` and `test_imports.py` are not part of this model.
- Detector.VerifyGit: the "every known head" listing renders Python's dict `repr` only for names and heads without quotes or backslashes, which `repr` would escape.
- Api.ResponseFor: its own contract states only the text endpoint. The three JSON views are stated by the contracts of `BriefingBody`, `ScanBodyOf` and `IllusionsBodyOf`.
- Scanner.ScanServices: it takes the configured services with distinct keys, as a Python dict has.

## Findings

| source | as written | input that shows it | evidently intended | confidence | as-written member | corrected member |
|---|---|---|---|---|---|---|
| librarian2/scanner.py:99, librarian2/scanner.py:121-133 | `_git` strips the whole `git status --porcelain` output before `scan_repo` splits it into lines, so the first line loses its leading blank status column | output " M a.py\n" (a.py modified in the work tree only) gives `staged == [".py"]` and `modified == []` | every line keeps its two status columns, so " M a.py" gives `modified == ["a.py"]` | not executed | Scanner.ScanRepo, Scanner.RepoStateMisreadsWorkTreeChange, Scanner.StatusLinesAsWritten, Scanner.StatusAsWrittenMisreadsFirstLine | Scanner.StatusLines, Scanner.StatusRoundTrip, Scanner.CorrectedSingleLine |

`ScanRepo`, and with it `FullScan`, follow the code as written. The corrected reading of the status output is `StatusLines`, whose round trip `StatusRoundTrip` proves.
