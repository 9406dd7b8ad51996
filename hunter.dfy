/** `AttackHunter`: the expiring query cache and the search pipeline built around it.

    The cache table (persisted by the original in a database file) is the map field
    `cache`; the current time is an integer number of seconds passed in as `now`; the
    download of the bundle is the parameter `fetched`, `None` when it failed. */
module Hunter {
  import opened Attack
  import opened Text
  import Seqs
  import Severity
  import Extraction
  import Filters

  /** Entries are fresh for 24 hours. */
  const CacheTtlSeconds: int := 24 * 60 * 60

  /** One row of the cache table: the stored technique list and when it was written. */
  datatype CacheEntry = CacheEntry(data: seq<StixObject>, timestamp: int)

  /** What `get_from_cache(key)` returns at time `now`: the stored list while it is less
      than 24 hours old, otherwise nothing (expired and missing look the same). */
  function Lookup(table: map<string, CacheEntry>, key: string, now: int): Option<seq<StixObject>>
  {
    if key in table && now - table[key].timestamp < CacheTtlSeconds then Some(table[key].data) else None
  }

  /** `f"{value}"` of an optional string: Python renders `None` as "None". */
  function Render(value: Option<string>): string
  {
    match value
    case None => "None"
    case Some(s) => s
  }

  /** `f"{keyword}_{tactic}_{max_results}_{min_severity}"` */
  function CacheKey(keyword: Option<string>, tactic: Option<string>, maxResults: nat, minSeverity: Option<string>): string
  {
    Render(keyword) + "_" + Render(tactic) + "_" + NatToString(maxResults) + "_" + Render(minSeverity)
  }

  /** The steps after the cache: the severity filter, then truncation to `max_results`. */
  function Finish(techniques: seq<StixObject>, maxResults: nat, minSeverity: Option<string>): seq<StixObject>
  {
    Seqs.Take(Filters.SeverityFilter(techniques, minSeverity), maxResults)
  }

  /** The outcome of one search: the final technique list (`None` when the search was
      abandoned because the download failed) and the cache table afterwards. */
  datatype SearchStep = SearchStep(results: Option<seq<StixObject>>, table: map<string, CacheEntry>)

  /** `search_techniques` up to the truncation, as a function of the cache table. */
  function Search(table: map<string, CacheEntry>, keyword: Option<string>, tactic: Option<string>,
                  maxResults: nat, minSeverity: Option<string>, fetched: Option<Document>, now: int): SearchStep
  {
    var key := CacheKey(keyword, tactic, maxResults, minSeverity);
    var cached := Lookup(table, key, now);
    if cached.Some? && cached.value != [] then
      SearchStep(Some(Finish(cached.value, maxResults, minSeverity)), table)
    else if fetched.None? then
      SearchStep(None, table)
    else
      var techniques := Filters.KeywordFilter(Extraction.Techniques(fetched, tactic), keyword);
      SearchStep(Some(Finish(techniques, maxResults, minSeverity)), table[key := CacheEntry(techniques, now)])
  }

  class AttackHunter {
    /** The cache table: query key to stored technique list and write time. */
    var cache: map<string, CacheEntry>

    /** `__init__` / `initialize_cache`: opening the store keeps whatever earlier runs
        left in it (the table is created only if it does not exist). */
    constructor (stored: map<string, CacheEntry>)
      ensures cache == stored
    {
      cache := stored;
    }

    /** `get_from_cache` */
    method GetFromCache(key: string, now: int) returns (data: Option<seq<StixObject>>)
      ensures data.Some? <==> key in cache && now - cache[key].timestamp < CacheTtlSeconds
      ensures data.Some? ==> data.value == cache[key].data
      ensures data == Lookup(cache, key, now)
    {
      if key in cache {
        var entry := cache[key];
        if now - entry.timestamp < CacheTtlSeconds {
          return Some(entry.data);
        }
      }
      return None;
    }

    /** `save_to_cache`: unconditionally replaces the entry for `key`. */
    method SaveToCache(key: string, data: seq<StixObject>, now: int)
      modifies this
      ensures cache == old(cache)[key := CacheEntry(data, now)]
    {
      cache := cache[key := CacheEntry(data, now)];
    }

    /** `search_techniques(keyword, tactic, max_results, min_severity)` up to the list
        handed to display or export. */
    method SearchTechniques(keyword: Option<string>, tactic: Option<string>, maxResults: nat,
                            minSeverity: Option<string>, fetched: Option<Document>, now: int)
      returns (results: Option<seq<StixObject>>)
      modifies this
      ensures SearchStep(results, cache) == Search(old(cache), keyword, tactic, maxResults, minSeverity, fetched, now)
    {
      var cacheKey := CacheKey(keyword, tactic, maxResults, minSeverity);
      var cached := GetFromCache(cacheKey, now);
      var techniques: seq<StixObject>;

      if cached.None? || cached.value == [] {
        if fetched.None? {
          return None;
        }
        techniques := Extraction.GetTechniques(fetched, tactic);
        techniques := Filters.KeywordFilter(techniques, keyword);
        SaveToCache(cacheKey, techniques, now);
      } else {
        techniques := cached.value;
      }

      techniques := Filters.SeverityFilter(techniques, minSeverity);
      techniques := Seqs.Take(techniques, maxResults);
      return Some(techniques);
    }
  }

  /** A write is visible to an immediate read of the same key, for exactly 24 hours. */
  lemma SaveThenLookup(table: map<string, CacheEntry>, key: string, data: seq<StixObject>, written: int, now: int)
    ensures Lookup(table[key := CacheEntry(data, written)], key, now) ==
      if now - written < CacheTtlSeconds then Some(data) else None
  {
  }

  /** A write leaves every other key's lookup unchanged. */
  lemma SaveKeepsOtherKeys(table: map<string, CacheEntry>, key: string, other: string, data: seq<StixObject>, written: int, now: int)
    requires other != key
    ensures Lookup(table[key := CacheEntry(data, written)], other, now) == Lookup(table, other, now)
  {
  }

  /** Once a present entry has expired it stays expired as time goes on. */
  lemma ExpiredStaysExpired(table: map<string, CacheEntry>, key: string, now: int, later: int)
    requires key in table && Lookup(table, key, now).None?
    requires now <= later
    ensures Lookup(table, key, later).None?
  {
  }

  /** The pipeline's order: severity filter first, then truncation. The result is the
      prefix of the severity-filtered list of length `min(max_results, |filtered|)`, every
      result has the requested tier, and every result comes from the input. */
  lemma FinishSpec(techniques: seq<StixObject>, maxResults: nat, minSeverity: Option<string>)
    ensures var filtered := Filters.SeverityFilter(techniques, minSeverity);
      Finish(techniques, maxResults, minSeverity) == filtered[..if maxResults < |filtered| then maxResults else |filtered|]
    ensures |Finish(techniques, maxResults, minSeverity)| <= maxResults
    ensures forall i :: 0 <= i < |Finish(techniques, maxResults, minSeverity)| ==>
      var t := Finish(techniques, maxResults, minSeverity)[i];
      t in techniques && (TruthyString(minSeverity) ==> Severity.SeverityLevel(t) == minSeverity.value)
  {
    var filtered := Filters.SeverityFilter(techniques, minSeverity);
    var r := Finish(techniques, maxResults, minSeverity);
    forall i | 0 <= i < |r|
      ensures r[i] in techniques && (TruthyString(minSeverity) ==> Severity.SeverityLevel(r[i]) == minSeverity.value)
    {
      assert r[i] == filtered[i];
      assert r[i] in filtered;
      Filters.SeverityFilterSpec(techniques, minSeverity, r[i]);
    }
  }

  /** Truncation counts only matching techniques: with `max_results == 1` and a severity
      filter, the single result is the first technique OF THAT TIER, even when an earlier
      technique of another tier comes first. */
  lemma TruncationAfterSeverityFilter(techniques: seq<StixObject>, level: string, k: nat)
    requires level != ""
    requires k < |techniques| && Severity.SeverityLevel(techniques[k]) == level
    requires forall j :: 0 <= j < k ==> Severity.SeverityLevel(techniques[j]) != level
    ensures Finish(techniques, 1, Some(level)) == [techniques[k]]
  {
    Seqs.FilterFirst(techniques, Filters.AtLevel(level), k);
  }

  /** A fresh, non-empty cache entry answers the query: nothing is fetched or written. */
  lemma SearchCacheHit(table: map<string, CacheEntry>, keyword: Option<string>, tactic: Option<string>,
                       maxResults: nat, minSeverity: Option<string>, fetched: Option<Document>, now: int)
    requires var cached := Lookup(table, CacheKey(keyword, tactic, maxResults, minSeverity), now);
      cached.Some? && cached.value != []
    ensures var step := Search(table, keyword, tactic, maxResults, minSeverity, fetched, now);
      && step.table == table
      && step.results == Some(Finish(Lookup(table, CacheKey(keyword, tactic, maxResults, minSeverity), now).value, maxResults, minSeverity))
  {
  }

  /** On a miss (no entry, an expired one, or a cached EMPTY list) with a failed download,
      the search is abandoned and the cache is left alone. */
  lemma SearchFetchFailure(table: map<string, CacheEntry>, keyword: Option<string>, tactic: Option<string>,
                           maxResults: nat, minSeverity: Option<string>, now: int)
    requires var cached := Lookup(table, CacheKey(keyword, tactic, maxResults, minSeverity), now);
      cached.None? || cached.value == []
    ensures Search(table, keyword, tactic, maxResults, minSeverity, None, now) == SearchStep(None, table)
  {
  }

  /** On a miss (including a cached empty list) with a successful download, the
      keyword-filtered extraction (before the severity filter and truncation) is written
      under the query's key, every other entry is kept, and the results are computed from
      that list. */
  lemma SearchMissWritesCache(table: map<string, CacheEntry>, keyword: Option<string>, tactic: Option<string>,
                              maxResults: nat, minSeverity: Option<string>, doc: Document, now: int)
    requires var cached := Lookup(table, CacheKey(keyword, tactic, maxResults, minSeverity), now);
      cached.None? || cached.value == []
    ensures var key := CacheKey(keyword, tactic, maxResults, minSeverity);
      var step := Search(table, keyword, tactic, maxResults, minSeverity, Some(doc), now);
      var techniques := Filters.KeywordFilter(Extraction.Techniques(Some(doc), tactic), keyword);
      && step.table.Keys == table.Keys + {key}
      && step.table[key] == CacheEntry(techniques, now)
      && (forall other :: other in table && other != key ==> step.table[other] == table[other])
      && step.results == Some(Finish(techniques, maxResults, minSeverity))
  {
  }

  /** Whatever path a search takes, its results are at most `max_results` techniques, each
      of the requested tier when one was given, and each either read from the cache entry
      of the query's key or an attack-pattern of the downloaded bundle. */
  lemma SearchResultsSpec(table: map<string, CacheEntry>, keyword: Option<string>, tactic: Option<string>,
                          maxResults: nat, minSeverity: Option<string>, fetched: Option<Document>, now: int)
    ensures var step := Search(table, keyword, tactic, maxResults, minSeverity, fetched, now);
      var key := CacheKey(keyword, tactic, maxResults, minSeverity);
      step.results.Some? ==>
        && |step.results.value| <= maxResults
        && forall i :: 0 <= i < |step.results.value| ==>
          var t := step.results.value[i];
          && (TruthyString(minSeverity) ==> Severity.SeverityLevel(t) == minSeverity.value)
          && ((key in table && t in table[key].data) ||
              (fetched.Some? && t in fetched.value.objects && Extraction.IsAttackPattern(t)))
  {
    var step := Search(table, keyword, tactic, maxResults, minSeverity, fetched, now);
    var key := CacheKey(keyword, tactic, maxResults, minSeverity);
    var cached := Lookup(table, key, now);
    if cached.Some? && cached.value != [] {
      FinishSpec(cached.value, maxResults, minSeverity);
    } else if fetched.Some? {
      var extracted := Extraction.Techniques(fetched, tactic);
      var techniques := Filters.KeywordFilter(extracted, keyword);
      FinishSpec(techniques, maxResults, minSeverity);
      forall t | t in techniques
        ensures t in fetched.value.objects && Extraction.IsAttackPattern(t)
      {
        Filters.KeywordFilterSpec(extracted, keyword, t);
        Extraction.TechniquesMembership(fetched.value, tactic, t);
      }
    }
  }

  /** The key renders an absent value as the text "None", so a search without a keyword
      and a search for the keyword "None" share a cache entry. */
  lemma CacheKeyConflatesNoneWithText(tactic: Option<string>, maxResults: nat, minSeverity: Option<string>)
    ensures CacheKey(None, tactic, maxResults, minSeverity) == CacheKey(Some("None"), tactic, maxResults, minSeverity)
  {
  }
}
