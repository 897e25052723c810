/**
 * The data provider's on-disk cache as the provider sees it: file names
 * built from a sanitised symbol and a data type, the freshness test
 * against the time-to-live, and the files clear_cache selects. The
 * filesystem itself (stat, pickle, glob, unlink) is outside the model: a
 * directory is a map from file name to what the provider would find there.
 */
module CacheFiles {
  import opened Common

  /**
   * What a cache file or a download holds, as far as the provider's
   * decisions go: its size (rows of a DataFrame, entries of a dict; zero
   * means `.empty`) and an identity standing for the contents.
   */
  datatype Payload = Payload(size: nat, id: int)
  {
    predicate Empty()
    {
      size == 0
    }
  }

  /** A file in the cache directory: its age in seconds and its unpickled contents (None when loading fails). */
  datatype CacheFile = CacheFile(ageSeconds: real, content: Option<Payload>)

  /** The file of that name in a directory listing, if there is one. */
  function FileAt(directory: map<string, CacheFile>, name: string): (r: Option<CacheFile>)
    ensures r.Some? <==> name in directory
    ensures r.Some? ==> r.value == directory[name]
  {
    if name in directory then Some(directory[name]) else None
  }

  // ---------------------------------------------------------------------
  // _get_cache_path

  /** `s.replace(c, r)` for a single character. */
  function Replace(s: string, c: char, r: char): string
  {
    seq(|s|, i requires 0 <= i < |s| => if s[i] == c then r else s[i])
  }

  /** `symbol.replace(":", "_").replace("/", "_")`. */
  function Sanitize(symbol: string): (r: string)
    ensures |r| == |symbol|
    ensures forall i :: 0 <= i < |r| ==> r[i] != ':' && r[i] != '/'
    ensures forall i :: 0 <= i < |r| ==> (symbol[i] == ':' || symbol[i] == '/') ==> r[i] == '_'
    ensures forall i :: 0 <= i < |r| ==> symbol[i] != ':' && symbol[i] != '/' ==> r[i] == symbol[i]
  {
    Replace(Replace(symbol, ':', '_'), '/', '_')
  }

  /** A sanitised symbol is its own sanitisation. */
  lemma SanitizeIdempotent(symbol: string)
    ensures Sanitize(Sanitize(symbol)) == Sanitize(symbol)
  {
    var s := Sanitize(symbol);
    assert forall i :: 0 <= i < |s| ==> Sanitize(s)[i] == s[i];
  }

  /** Symbols that differ only by ':', '/' and '_' in the same places share their cache files. */
  lemma SanitizeCollision()
    ensures Sanitize("BRK/B") == Sanitize("BRK:B") == Sanitize("BRK_B") == "BRK_B"
  {
    assert Sanitize("BRK/B")[3] == '_';
    assert Sanitize("BRK:B")[3] == '_';
  }

  /** The cache file name `f"{safe_symbol}_{data_type}.pkl"` inside the cache directory. */
  function CacheFileName(symbol: string, dataType: string): (r: string)
    ensures |r| == |symbol| + |dataType| + 5
    ensures r[..|symbol|] == Sanitize(symbol) && r[|symbol|] == '_'
    ensures r[|symbol| + 1..|symbol| + 1 + |dataType|] == dataType
    ensures EndsWith(r, ".pkl")
    ensures forall i :: 0 <= i < |symbol| ==> r[i] != ':' && r[i] != '/'
  {
    Sanitize(symbol) + "_" + dataType + ".pkl"
  }

  predicate StartsWith(s: string, prefix: string)
  {
    |prefix| <= |s| && s[..|prefix|] == prefix
  }

  predicate EndsWith(s: string, suffix: string)
  {
    |suffix| <= |s| && s[|s| - |suffix|..] == suffix
  }

  /**
   * Two symbols of the same length share a cache file for some data type
   * exactly when they sanitise alike: the name determines both the
   * sanitised symbol and the data type.
   */
  lemma CacheFileNameInjective(s1: string, t1: string, s2: string, t2: string)
    requires |s1| == |s2|
    ensures CacheFileName(s1, t1) == CacheFileName(s2, t2) <==> Sanitize(s1) == Sanitize(s2) && t1 == t2
  {
    var a, b := CacheFileName(s1, t1), CacheFileName(s2, t2);
    if a == b {
      assert Sanitize(s1) == a[..|s1|] == b[..|s2|] == Sanitize(s2);
      assert t1 == a[|s1| + 1..|s1| + 1 + |t1|];
      assert t2 == b[|s2| + 1..|s2| + 1 + |t2|];
    }
  }

  /**
   * Across symbol lengths the names collide: symbol s + "_" + t with data
   * type u and symbol s with data type t + "_" + u share one cache file
   * whenever t needs no sanitising. So the fundamentals of "X_statement"
   * and the "fundamental" statement of "X" (data type
   * `statement_fundamental`) are both X_statement_fundamental.pkl.
   */
  lemma CacheFileNameAcrossLengths(s: string, t: string, u: string)
    requires forall i :: 0 <= i < |t| ==> t[i] != ':' && t[i] != '/'
    ensures CacheFileName(s + "_" + t, u) == CacheFileName(s, t + "_" + u)
  {
    var joined := s + "_" + t;
    assert Sanitize(joined) == Sanitize(s) + "_" + t by {
      assert forall i :: 0 <= i < |joined| ==> Sanitize(joined)[i] == (Sanitize(s) + "_" + t)[i];
    }
  }

  // ---------------------------------------------------------------------
  // _is_cache_valid

  /**
   * The file exists and is younger than the time-to-live (in hours). The
   * age `now - mtime` is a parameter: the clock is outside the model.
   */
  predicate Fresh(ttlHours: int, file: Option<CacheFile>)
  {
    file.Some? && file.value.ageSeconds < ttlHours as real * 3600.0
  }

  /** A missing file is never fresh; a fresh file stays fresh for any younger age or longer time-to-live. */
  lemma FreshMonotone(ttl: int, longer: int, file: CacheFile, younger: real)
    requires Fresh(ttl, Some(file)) && ttl <= longer && younger <= file.ageSeconds
    ensures !Fresh(ttl, None)
    ensures Fresh(longer, Some(file)) && Fresh(ttl, Some(CacheFile(younger, file.content)))
  {
    assert ttl as real * 3600.0 <= longer as real * 3600.0;
  }

  // ---------------------------------------------------------------------
  // clear_cache

  /**
   * The files clear_cache deletes: with a non-empty symbol the glob
   * `f"{pattern}*"` selects the names that start with the sanitised
   * symbol; with no symbol, or an empty one (falsy), `*.pkl` selects
   * every pickle file.
   */
  function ClearSelection(names: set<string>, symbol: Option<string>): (r: set<string>)
    ensures r <= names
    ensures symbol.Some? && symbol.value != "" ==> forall n :: n in names ==> (n in r <==> StartsWith(n, Sanitize(symbol.value)))
    ensures symbol.None? || symbol.value == "" ==> forall n :: n in names ==> (n in r <==> EndsWith(n, ".pkl"))
  {
    if symbol.Some? && symbol.value != "" then
      set n | n in names && StartsWith(n, Sanitize(symbol.value))
    else
      set n | n in names && EndsWith(n, ".pkl")
  }

  /**
   * Clearing a symbol removes every cache file written for it, and
   * clearing everything removes every cache file of every symbol.
   */
  lemma ClearSelectsCacheFiles(names: set<string>, symbol: string, dataType: string, other: Option<string>)
    requires CacheFileName(symbol, dataType) in names
    requires other.None? || other.value == "" || other.value == symbol
    ensures CacheFileName(symbol, dataType) in ClearSelection(names, other)
  {
    var n := CacheFileName(symbol, dataType);
    if other.Some? && other.value != "" {
      assert n[..|symbol|] == Sanitize(symbol);
    }
  }

  /**
   * The selection is by prefix, so clearing one symbol also clears every
   * symbol it is a prefix of: clearing "AA" deletes AAPL's files.
   */
  lemma ClearPrefixOverreach(dataType: string)
    ensures CacheFileName("AAPL", dataType) in ClearSelection({CacheFileName("AAPL", dataType)}, Some("AA"))
  {
    var n := CacheFileName("AAPL", dataType);
    assert n[..4] == "AAPL";
    assert n[..2] == "AA" == Sanitize("AA");
  }

  /**
   * The deletion loop: every selected file is unlinked, except those whose
   * unlink fails (an oracle here), which are only logged and stay.
   */
  method ClearCache(names: set<string>, symbol: Option<string>, undeletable: set<string>)
    returns (removed: set<string>, failed: set<string>)
    ensures removed == ClearSelection(names, symbol) - undeletable
    ensures failed == ClearSelection(names, symbol) * undeletable
    ensures removed !! failed && removed + failed == ClearSelection(names, symbol)
  {
    var selected := ClearSelection(names, symbol);
    var pending := selected;
    removed, failed := {}, {};
    while pending != {}
      invariant pending <= selected
      invariant removed == (selected - pending) - undeletable
      invariant failed == (selected - pending) * undeletable
      decreases |pending|
    {
      var file :| file in pending;
      if file in undeletable {
        failed := failed + {file};
      } else {
        removed := removed + {file};
      }
      pending := pending - {file};
    }
  }
}
