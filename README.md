# AttackHunter query engine, modelled in Dafny

This project models the query engine of `AttackHunter`, the MITRE ATT&CK technique
searcher of cvehunter. The engine reads the Enterprise STIX bundle, a list of
heterogeneous JSON objects. From it:

- it extracts the `attack-pattern` objects (techniques), optionally restricted to one
  tactic. The tactic is given by its code (`TA0001`). The code is resolved to the tactic's
  name, because techniques refer to tactics by phase name.
- it filters them by a case-insensitive keyword.
- it keeps the result for 24 hours in a cache keyed by the query.
- it then filters by an exact severity tier and truncates to `max_results`.
- each technique is flattened into a display/export row.

Modules, one per component:

- `Attack`: the data model. A STIX object has optional fields (`None` = key absent). The
  bundle is `Document`.
- `Seqs`: order-preserving `Filter`, which every list comprehension and `append` loop
  reduces to. It comes with lemmas: membership, multiplicity, subsequence, append, first
  element.
- `Text`: `str.lower`, the `in` substring test, `', '.join`, and the decimal rendering
  of `max_results`.
- `Severity`: `get_severity_level`. The scoring is a method that accumulates the score.
  The score and its tier are also written as functions, with lemmas about them.
- `Extraction`: `get_techniques`. It is a method with the original's two loops, nested
  loops and `break`s. It is proved equal to the function `Techniques`, and lemmas
  characterise that function.
- `Rows`: `prepare_technique_data`.
- `Filters`: the keyword and severity comprehensions of `search_techniques`.
- `Hunter`: class `AttackHunter`. The cache table is its map field `cache`.
  `GetFromCache`, `SaveToCache` and `SearchTechniques` work on it. `SearchTechniques` is
  proved equal to the function `Search`, and the lemmas about `Search` state the
  pipeline's promises.

Inputs that come from outside the program are parameters:

- The clock is `now`, an integer number of seconds.
- The download of the bundle is `fetched: Option<Document>`. `None` stands for an HTTP
  error, a transport error, or a falsy document.
- The cache table that earlier runs left on disk is the constructor's `stored` argument.

Points where the code behaves differently from a first reading, all kept in the model:

- The object types compared are `attack-pattern` and `x-mitre-tactic`.
- An unknown tactic code does not always yield an empty result. The name stays `None`, so
  techniques with a phase that lacks `phase_name` still match
  (`Extraction.UnknownTacticKeepsOnlyUnnamedPhases`).
- The name scan does not always stop at the first matching tactic. A match with an absent
  or empty name is overwritten by later matches (`Extraction.FirstMatchingTacticNamed`).
- A cached empty list counts as a miss and triggers a new download.
- A failed download makes the search return nothing. No error value reaches the caller.

## Model

| member | source | states |
|---|---|---|
| Hunter.AttackHunter.constructor | main.py:41-48 | opening the cache keeps the table earlier runs stored (create-if-absent, idempotent) |
| Hunter.AttackHunter.GetFromCache | main.py:50-62 | returns the stored list iff an entry for the key exists and its age is strictly under 24 h; otherwise nothing, expired and missing alike |
| Hunter.AttackHunter.SaveToCache | main.py:64-70 | replaces the entry for the key with (data, now) unconditionally; every other entry is unchanged |
| Hunter.SaveThenLookup | main.py:50-70 | a read after a write returns the written list exactly while less than 24 h have passed since the write |
| Hunter.SaveKeepsOtherKeys | main.py:64-70 | a write does not change what any other key reads |
| Hunter.ExpiredStaysExpired | main.py:57-62 | a present entry that has expired stays expired at every later time |
| Extraction.GetTechniques | main.py:85-117 | the two loops (tactic-name scan with breaks, then technique collection with a break on the first matching phase) compute `Techniques`; a falsy dataset yields [] |
| Extraction.UnknownTacticHasNoName | main.py:91-102 | if no tactic object with references carries the code, the resolved name stays None |
| Extraction.FirstMatchingTacticNamed | main.py:94-102 | the code resolves to the name of the first tactic object that carries it and has a truthy name; earlier carriers with an absent or empty name are passed over |
| Extraction.TacticNameComesFromTactic | main.py:94-102 | a truthy resolved name is the name of some tactic object whose references carry the code |
| Extraction.TechniquesMembership | main.py:104-117 | an object is extracted iff it is in the bundle, is an attack-pattern, and (with a truthy tactic code) has a phase named as the resolved tactic name |
| Extraction.TechniquesAreOrderedAttackPatterns | main.py:104-117 | the result is a subsequence of the bundle (document order), every element is an attack-pattern, and every occurrence of a passing object is emitted exactly once, however many phases match |
| Extraction.NoTacticKeepsAllAttackPatterns | main.py:104-115 | for any bundle, without a truthy tactic code the result is a subsequence of the objects holding every attack-pattern occurrence and nothing else |
| Extraction.UnknownTacticKeepsOnlyUnnamedPhases | main.py:91-113 | with an unknown code, exactly the attack-patterns with a phase lacking `phase_name` are kept |
| Extraction.TacticFilterUsesFirstTacticName | main.py:94-113 | with a code, a technique is kept iff it is an attack-pattern with a phase named as the first truthy-named tactic carrying the code |
| Severity.GetSeverityLevel | main.py:119-147 | the accumulated score gives one of the four labels, the tier of the additive score |
| Severity.ScoreBounds | main.py:121-138 | the score lies in 0..6; it is 0 iff no factor applies and 6 iff all four apply |
| Severity.TierThresholds | main.py:140-147 | CRÍTICO iff score >= 4, ALTO iff 3, MÉDIO iff 2, BAIXO iff <= 1 |
| Severity.PlatformsAndBypassDecideExtremes | main.py:127-147 | more than 3 platforms plus a bypassed defence is always CRÍTICO; neither gives at most MÉDIO |
| Severity.CriticalScenario | main.py:119-147 | 4 platforms, a bypass, no permissions, not deprecated: CRÍTICO |
| Rows.PrepareTechniqueData | main.py:149-165 | Technique_ID is the external_id of the first mitre-attack reference, else "N/A"; name, detection and description defaults; phase names and platforms joined by ", "; severity as classified; a phase without `phase_name` raises |
| Text.Contains | main.py:182-183 | the `in` test holds iff the needle occurs at some position of the text |
| Text.NatToStringRoundTrip | main.py:169 | the decimal rendering of `max_results` in the cache key reads back as the same number |
| Filters.KeywordFilterSpec | main.py:179-184 | a truthy keyword keeps exactly the techniques whose lower-cased name or description contains the lower-cased keyword, every occurrence, in order; a falsy keyword keeps all |
| Filters.PhishScenario | main.py:179-184 | "phish" matches "Phishing emails..." but not "Password" |
| Filters.SeverityFilterSpec | main.py:188-192 | a truthy severity keeps exactly the techniques whose tier equals it, every occurrence, in order; a falsy one keeps all |
| Filters.SeverityFilterIsNotThreshold | main.py:188-192 | asking for CRÍTICO drops an ALTO technique (equality, not a threshold) |
| Hunter.FinishSpec | main.py:188-194 | the final list is the prefix of length min(max_results, n) of the severity-filtered list, each element of the requested tier and from the input |
| Hunter.TruncationAfterSeverityFilter | main.py:188-194 | with max_results 1 and a tier, the result is the first technique of that tier |
| Hunter.AttackHunter.SearchTechniques | main.py:167-194 | the method's results and new cache equal `Search` of the old cache |
| Hunter.SearchCacheHit | main.py:169-172 | a fresh non-empty entry for the query key answers the query; the cache is not written |
| Hunter.SearchFetchFailure | main.py:170-175 | on a miss (including a cached empty list) with a failed download, nothing is returned and the cache is unchanged |
| Hunter.SearchMissWritesCache | main.py:169-186 | on a miss with a download, the keyword-filtered extraction (before severity filter and truncation) is stored under the key with time now, other entries kept |
| Hunter.SearchResultsSpec | main.py:167-194 | results number at most max_results, have the requested tier, and come from the key's cache entry or are attack-patterns of the downloaded bundle |
| Hunter.CacheKeyConflatesNoneWithText | main.py:169 | the key renders an absent keyword as "None", the same as the keyword text "None" |

## Left out

- The HTTP download in `fetch_attack_data` (main.py:72-83) is network I/O. It is the
  parameter `fetched`.
- SQLite is not modelled: connecting, `CREATE TABLE`, `INSERT OR REPLACE`, commits and
  creating the cache directory. Neither is the `json.dumps`/`json.loads` encoding of the
  payload. The table is a map, and the payload is assumed to round-trip unchanged.
- Timestamp text formatting is not modelled. The original takes `datetime.now()` twice,
  once when reading and once when writing, and stores the write time truncated to whole
  seconds. The model uses one integer `now` in seconds for both.
- Export to CSV/JSON and the unsupported-format message (main.py:196-222) are file I/O and
  console output.
- `display_results`, `show_banner` and the console styling are user interface.
- `main` and argument parsing are CLI plumbing.
- `max_results` is a `nat`. A negative value, which the CLI accepts, would make Python's
  slice drop items from the end. That case is not modelled.
- Text.Lower folds only ASCII and Latin-1 capital letters. The keyword filter applies it
  before `Text.Contains`. Python's `str.lower` covers all of Unicode.
- JSON `null` is not told apart from an absent key. Field values of the wrong JSON type are
  not modelled. The original would raise on some of these, for example
  `len(None)` in `get_severity_level`.
- A non-empty document without an `objects` key makes the original raise `KeyError`. The
  modelled `Document` always carries its objects.
- Rows.PrepareTechniqueData: the only exception it models is `KeyError` for a phase without
  `phase_name`, returned as `None`.
