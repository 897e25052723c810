/**
 * The data provider's decision order: serve a fresh cache, else a stale
 * but usable cache, else download with retries and exponential back-off,
 * else fall back to the cache once more, else raise ConnectionError. The
 * network is an oracle (the outcome of the n-th download attempt) and so
 * is the cache directory (as found before the downloads and after them);
 * sleeping is reported as the list of waits in seconds.
 */
module Fetching {
  import opened Common
  import opened CacheFiles

  /** What one download attempt produced. */
  datatype Download = Received(data: Payload) | Failed(error: Error)

  /** Where a served value came from. */
  datatype Source = FreshCache | StaleCache | Downloaded(attempt: nat) | FallbackCache

  /** A getter's result: a value and where it came from, or the exception raised. */
  datatype Outcome = Served(data: Payload, from: Source) | Raised(error: Error)

  /** The price path wants a DataFrame, the fundamental path a dict. */
  datatype Kind = Prices | Fundamentals

  /** The price path refuses an empty cached frame outside the fresh branch; the fundamental path only wants a value. */
  predicate Usable(kind: Kind, p: Payload)
  {
    kind == Fundamentals || !p.Empty()
  }

  /** An attempt succeeds when it returns data; an empty price frame raises inside the attempt. */
  predicate Succeeds(kind: Kind, d: Download)
  {
    d.Received? && Usable(kind, d.data)
  }

  /** The cached value a file yields when it is there, loads and is usable. */
  predicate Serves(kind: Kind, file: Option<CacheFile>)
  {
    file.Some? && file.value.content.Some? && Usable(kind, file.value.content.value)
  }

  /** The two cache checks before any download: a fresh file that loads, then any file that loads and is usable. */
  function FromCache(kind: Kind, useCache: bool, ttl: int, file: Option<CacheFile>): (r: Option<Outcome>)
    ensures r.Some? ==> useCache && file.Some? && file.value.content.Some?
    ensures r.Some? ==> r.value.Served? && r.value.data == file.value.content.value
  {
    if useCache && Fresh(ttl, file) && file.value.content.Some? then Some(Served(file.value.content.value, FreshCache))
    else if useCache && Serves(kind, file) then Some(Served(file.value.content.value, StaleCache))
    else None
  }

  /** The first successful attempt numbered from `from` up to maxRetries. */
  function FirstSuccess(kind: Kind, download: nat -> Download, maxRetries: int, from: nat): (r: Option<nat>)
    requires from >= 1
    ensures r.Some? ==> from <= r.value <= maxRetries && Succeeds(kind, download(r.value))
    ensures r.Some? ==> forall a :: from <= a < r.value ==> !Succeeds(kind, download(a))
    ensures r.None? ==> forall a :: from <= a <= maxRetries ==> !Succeeds(kind, download(a))
    decreases maxRetries + 1 - from
  {
    if from > maxRetries then None
    else if Succeeds(kind, download(from)) then Some(from)
    else FirstSuccess(kind, download, maxRetries, from + 1)
  }

  function Pow2(n: nat): (r: nat)
    ensures r >= 1
  {
    if n == 0 then 1 else 2 * Pow2(n - 1)
  }

  /** The waits `2 ** attempt` after the failed attempts 1..n. */
  function Backoff(n: nat): (r: seq<nat>)
    ensures |r| == n && forall k :: 0 <= k < n ==> r[k] == Pow2(k + 1)
  {
    if n == 0 then [] else Backoff(n - 1) + [Pow2(n)]
  }

  /** The waits so far when attempt `attempt` is next: one per failed attempt except the last allowed one. */
  function Slept(attempt: nat, maxRetries: int): nat
  {
    if attempt > 1 && attempt > maxRetries then attempt - 2 else if attempt >= 1 then attempt - 1 else 0
  }

  /** The result of get_price_data (Prices) or get_fundamental_data (Fundamentals). */
  function Fetch(kind: Kind, useCache: bool, ttl: int, maxRetries: int, before: Option<CacheFile>,
    after: Option<CacheFile>, download: nat -> Download): Outcome
  {
    match FromCache(kind, useCache, ttl, before)
    case Some(o) => o
    case None =>
      match FirstSuccess(kind, download, maxRetries, 1)
      case Some(a) => Served(download(a).data, Downloaded(a))
      case None =>
        if useCache && Serves(kind, after) then Served(after.value.content.value, FallbackCache)
        else Raised(ConnectionFailed)
  }

  /** The seconds slept on the way to that result. */
  function Waits(kind: Kind, useCache: bool, ttl: int, maxRetries: int, before: Option<CacheFile>,
    download: nat -> Download): seq<nat>
  {
    if FromCache(kind, useCache, ttl, before).Some? then []
    else match FirstSuccess(kind, download, maxRetries, 1)
      case Some(a) => Backoff(a - 1)
      case None => Backoff(if maxRetries >= 1 then maxRetries - 1 else 0)
  }

  /** The file a call writes: a successful download is cached when the cache is in use. */
  function Written(useCache: bool, path: string, r: Outcome): Option<(string, Payload)>
  {
    if useCache && r.Served? && r.from.Downloaded? then Some((path, r.data)) else None
  }

  function PriceDataType(period: string, interval: string): string
  {
    "price_" + period + "_" + interval
  }

  const FundamentalDataType: string := "fundamental"

  function StatementDataType(statementType: string): string
  {
    "statement_" + statementType
  }

  /** The statement types get_financial_statements knows. */
  predicate KnownStatement(statementType: string)
  {
    statementType == "income" || statementType == "balance" || statementType == "cashflow"
  }

  /**
   * The result of get_financial_statements: only a fresh cache is served;
   * otherwise one download, with no retry and no stale fallback, whose
   * errors propagate.
   */
  function StatementFetch(statementType: string, useCache: bool, ttl: int, file: Option<CacheFile>,
    download: Download): (r: Outcome)
    ensures r.Served? ==> r.from == FreshCache || r.from == Downloaded(1)
  {
    if useCache && Fresh(ttl, file) && file.value.content.Some? then Served(file.value.content.value, FreshCache)
    else if !KnownStatement(statementType) then Raised(InvalidStatementType(statementType))
    else match download
      case Failed(e) => Raised(e)
      case Received(p) => if p.Empty() then Raised(NoData) else Served(p, Downloaded(1))
  }

  /** The provider's settings; none of them change after construction. */
  datatype DataProvider = DataProvider(cacheTtl: int, timeout: int, maxRetries: int)
  {
    /**
     * The shared body of get_price_data and get_fundamental_data for the
     * cache file `path`: the cache checks, the retry loop, the fallback.
     */
    method Retrieve(kind: Kind, path: string, useCache: bool, before: map<string, CacheFile>,
      after: map<string, CacheFile>, download: nat -> Download)
      returns (r: Outcome, waits: seq<nat>, written: Option<(string, Payload)>)
      ensures r == Fetch(kind, useCache, cacheTtl, maxRetries, FileAt(before, path), FileAt(after, path), download)
      ensures waits == Waits(kind, useCache, cacheTtl, maxRetries, FileAt(before, path), download)
      ensures written == Written(useCache, path, r)
    {
      var file := FileAt(before, path);
      if useCache && Fresh(cacheTtl, file) && file.value.content.Some? {
        return Served(file.value.content.value, FreshCache), [], None;
      }
      if useCache && Serves(kind, file) {
        return Served(file.value.content.value, StaleCache), [], None;
      }
      waits := [];
      var attempt := 1;
      while attempt <= maxRetries
        invariant if maxRetries >= 1 then 1 <= attempt <= maxRetries + 1 else attempt == 1
        invariant FirstSuccess(kind, download, maxRetries, attempt) == FirstSuccess(kind, download, maxRetries, 1)
        invariant waits == Backoff(Slept(attempt, maxRetries))
        decreases maxRetries + 1 - attempt
      {
        var d := download(attempt);
        if Succeeds(kind, d) {
          r := Served(d.data, Downloaded(attempt));
          return r, waits, Written(useCache, path, r);
        }
        if attempt < maxRetries {
          waits := waits + [Pow2(attempt)];
        }
        attempt := attempt + 1;
      }
      assert FirstSuccess(kind, download, maxRetries, attempt).None?;
      assert FromCache(kind, useCache, cacheTtl, file).None?;
      var later := FileAt(after, path);
      if useCache && Serves(kind, later) {
        return Served(later.value.content.value, FallbackCache), waits, None;
      }
      return Raised(ConnectionFailed), waits, None;
    }

    /** get_price_data: the cache file is `{symbol}_price_{period}_{interval}.pkl`. */
    method GetPriceData(symbol: string, period: string, interval: string, useCache: bool,
      before: map<string, CacheFile>, after: map<string, CacheFile>, download: nat -> Download)
      returns (r: Outcome, waits: seq<nat>, written: Option<(string, Payload)>)
      ensures var path := CacheFileName(symbol, PriceDataType(period, interval));
        r == Fetch(Prices, useCache, cacheTtl, maxRetries, FileAt(before, path), FileAt(after, path), download) &&
        waits == Waits(Prices, useCache, cacheTtl, maxRetries, FileAt(before, path), download) &&
        written == Written(useCache, path, r)
    {
      r, waits, written := Retrieve(Prices, CacheFileName(symbol, PriceDataType(period, interval)), useCache, before, after, download);
    }

    /** get_fundamental_data: the cache file is `{symbol}_fundamental.pkl`. */
    method GetFundamentalData(symbol: string, useCache: bool,
      before: map<string, CacheFile>, after: map<string, CacheFile>, download: nat -> Download)
      returns (r: Outcome, waits: seq<nat>, written: Option<(string, Payload)>)
      ensures var path := CacheFileName(symbol, FundamentalDataType);
        r == Fetch(Fundamentals, useCache, cacheTtl, maxRetries, FileAt(before, path), FileAt(after, path), download) &&
        waits == Waits(Fundamentals, useCache, cacheTtl, maxRetries, FileAt(before, path), download) &&
        written == Written(useCache, path, r)
    {
      r, waits, written := Retrieve(Fundamentals, CacheFileName(symbol, FundamentalDataType), useCache, before, after, download);
    }

    /** get_financial_statements: the cache file is `{symbol}_statement_{statement_type}.pkl`. */
    method GetFinancialStatements(symbol: string, statementType: string, useCache: bool,
      before: map<string, CacheFile>, download: Download)
      returns (r: Outcome, written: Option<(string, Payload)>)
      ensures var path := CacheFileName(symbol, StatementDataType(statementType));
        r == StatementFetch(statementType, useCache, cacheTtl, FileAt(before, path), download) &&
        written == Written(useCache, path, r)
    {
      var path := CacheFileName(symbol, StatementDataType(statementType));
      var file := FileAt(before, path);
      if useCache && Fresh(cacheTtl, file) && file.value.content.Some? {
        return Served(file.value.content.value, FreshCache), None;
      }
      if !KnownStatement(statementType) {
        return Raised(InvalidStatementType(statementType)), None;
      }
      match download
      case Failed(e) =>
        return Raised(e), None;
      case Received(p) =>
        if p.Empty() {
          return Raised(NoData), None;
        }
        r := Served(p, Downloaded(1));
        return r, Written(useCache, path, r);
    }
  }

  /** `DataProvider()`: a one-hour time-to-live, a 60-second timeout and three attempts. */
  const DefaultProvider: DataProvider := DataProvider(1, 60, 3)

  // ---------------------------------------------------------------------
  // Properties of the decision order

  /**
   * With the cache in use, a fresh file that loads is served as it is (even
   * an empty frame), before anything else is tried: nothing is downloaded,
   * slept or written.
   */
  lemma FreshCacheFirst(kind: Kind, ttl: int, maxRetries: int, before: Option<CacheFile>,
    after: Option<CacheFile>, download: nat -> Download)
    requires Fresh(ttl, before) && before.value.content.Some?
    ensures Fetch(kind, true, ttl, maxRetries, before, after, download) == Served(before.value.content.value, FreshCache)
    ensures Waits(kind, true, ttl, maxRetries, before, download) == []
  {
  }

  /**
   * Whenever a cached value is served before the downloads, the result is
   * the same whatever the network would have done: no attempt is made.
   */
  lemma CacheBeforeDownload(kind: Kind, useCache: bool, ttl: int, maxRetries: int, before: Option<CacheFile>,
    after1: Option<CacheFile>, after2: Option<CacheFile>, d1: nat -> Download, d2: nat -> Download)
    requires FromCache(kind, useCache, ttl, before).Some?
    ensures Fetch(kind, useCache, ttl, maxRetries, before, after1, d1) == Fetch(kind, useCache, ttl, maxRetries, before, after2, d2)
    ensures Waits(kind, useCache, ttl, maxRetries, before, d1) == []
  {
  }

  /**
   * A downloaded result comes from attempt a with 1 <= a <= maxRetries:
   * that attempt succeeded, every earlier one failed, and one wait of
   * 2, 4, ... seconds followed each failed attempt.
   */
  lemma DownloadedAttempt(kind: Kind, useCache: bool, ttl: int, maxRetries: int, before: Option<CacheFile>,
    after: Option<CacheFile>, download: nat -> Download)
    requires var r := Fetch(kind, useCache, ttl, maxRetries, before, after, download); r.Served? && r.from.Downloaded?
    ensures var r := Fetch(kind, useCache, ttl, maxRetries, before, after, download); var a := r.from.attempt;
      1 <= a <= maxRetries && download(a) == Received(r.data) && Usable(kind, r.data) &&
      (forall b :: 1 <= b < a ==> !Succeeds(kind, download(b))) &&
      Waits(kind, useCache, ttl, maxRetries, before, download) == Backoff(a - 1)
  {
    var first := FirstSuccess(kind, download, maxRetries, 1);
    assert FromCache(kind, useCache, ttl, before).None?;
    assert first.Some?;
  }

  /** An empty price frame is never the downloaded result: it counts as a failed attempt. */
  lemma EmptyDownloadFails(useCache: bool, ttl: int, maxRetries: int, before: Option<CacheFile>,
    after: Option<CacheFile>, download: nat -> Download)
    requires var r := Fetch(Prices, useCache, ttl, maxRetries, before, after, download); r.Served? && r.from.Downloaded?
    ensures !Fetch(Prices, useCache, ttl, maxRetries, before, after, download).data.Empty()
  {
    DownloadedAttempt(Prices, useCache, ttl, maxRetries, before, after, download);
  }

  /**
   * ConnectionError is raised exactly when no cache check served, every
   * one of the maxRetries attempts failed and the fallback found no usable
   * cache; then max(maxRetries - 1, 0) waits were slept. No other
   * exception escapes.
   */
  lemma ConnectionErrorIff(kind: Kind, useCache: bool, ttl: int, maxRetries: int, before: Option<CacheFile>,
    after: Option<CacheFile>, download: nat -> Download)
    ensures var r := Fetch(kind, useCache, ttl, maxRetries, before, after, download);
      (r.Raised? ==> r.error == ConnectionFailed) &&
      (r.Raised? <==>
        FromCache(kind, useCache, ttl, before).None? &&
        (forall a :: 1 <= a <= maxRetries ==> !Succeeds(kind, download(a))) &&
        !(useCache && Serves(kind, after)))
    ensures Fetch(kind, useCache, ttl, maxRetries, before, after, download).Raised? ==>
      Waits(kind, useCache, ttl, maxRetries, before, download) == Backoff(if maxRetries >= 1 then maxRetries - 1 else 0)
  {
  }

  /** Without the cache, neither cache state matters and nothing is written. */
  lemma NoCacheIgnoresFiles(kind: Kind, ttl: int, maxRetries: int, b1: Option<CacheFile>, a1: Option<CacheFile>,
    b2: Option<CacheFile>, a2: Option<CacheFile>, download: nat -> Download, path: string)
    ensures Fetch(kind, false, ttl, maxRetries, b1, a1, download) == Fetch(kind, false, ttl, maxRetries, b2, a2, download)
    ensures Waits(kind, false, ttl, maxRetries, b1, download) == Waits(kind, false, ttl, maxRetries, b2, download)
    ensures Written(false, path, Fetch(kind, false, ttl, maxRetries, b1, a1, download)) == None
    ensures Fetch(kind, false, ttl, maxRetries, b1, a1, download).Served? ==> Fetch(kind, false, ttl, maxRetries, b1, a1, download).from.Downloaded?
  {
  }

  /**
   * The fundamental path serves a stale cache that merely loads, even an
   * empty dict; the price path refuses an empty stale frame and downloads.
   */
  lemma StaleCacheAcceptance(ttl: int, maxRetries: int, before: Option<CacheFile>, after: Option<CacheFile>,
    download: nat -> Download)
    requires before.Some? && before.value.content.Some? && !Fresh(ttl, before)
    ensures Fetch(Fundamentals, true, ttl, maxRetries, before, after, download) == Served(before.value.content.value, StaleCache)
    ensures before.value.content.value.Empty() ==>
      Fetch(Prices, true, ttl, maxRetries, before, after, download) != Served(before.value.content.value, StaleCache)
  {
  }

  /**
   * With the cache file unchanged during the retries, the fallback after
   * them never serves: the same file was already refused before them.
   */
  lemma FallbackNeedsNewCache(kind: Kind, useCache: bool, ttl: int, maxRetries: int, file: Option<CacheFile>,
    download: nat -> Download)
    ensures var r := Fetch(kind, useCache, ttl, maxRetries, file, file, download);
      r.Served? ==> r.from != FallbackCache
  {
  }

  /**
   * get_financial_statements: an unknown statement type raises ValueError
   * whatever the network does, so no attempt is made; a stale cache is
   * never served; at most the one attempt is made.
   */
  lemma StatementDecisions(statementType: string, useCache: bool, ttl: int, file: Option<CacheFile>,
    d1: Download, d2: Download)
    ensures !KnownStatement(statementType) && !(useCache && Fresh(ttl, file) && file.value.content.Some?) ==>
      StatementFetch(statementType, useCache, ttl, file, d1) == Raised(InvalidStatementType(statementType))
    ensures (StatementFetch(statementType, useCache, ttl, file, d1).Served? &&
      StatementFetch(statementType, useCache, ttl, file, d1).from == FreshCache) ==> Fresh(ttl, file)
    ensures var r := StatementFetch(statementType, useCache, ttl, file, d1);
      r.Served? && r.from.Downloaded? ==> d1 == Received(r.data) && !r.data.Empty() && KnownStatement(statementType)
  {
  }
}
