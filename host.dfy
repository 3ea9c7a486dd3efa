/** The process-wide state the relay reads and writes: the log directory's
    files (path -> text) and the in-memory `oracleCache` of job and
    executor flags. */
module Host {
  import opened Strings

  /** The files of the log directory, named after the fields of
      `LOG_FILES_PATH_NAMES` that the controllers use. */
  datatype Path =
    | FioLog                          // FIO
    | EthLog                          // ETH
    | MaticLog                        // MATIC
    | OracleErrors                    // oracleErrors
    | BlockNumberFio                  // blockNumberFIO
    | BlockNumberUnwrapTokensEth      // blockNumberUnwrapTokensETH
    | BlockNumberUnwrapDomainEth      // blockNumberUnwrapDomainETH
    | BlockNumberUnwrapDomainPolygon  // blockNumberUnwrapDomainPolygon
    | WrapTokensQueue                 // wrapTokensTransaction
    | WrapTokensErrors                // wrapTokensTransactionError
    | WrapDomainQueue                 // wrapDomainTransaction
    | WrapDomainByEthQueue            // wrapDomainByEthTransaction
    | WrapDomainByEthErrors           // wrapDomainByEthTransactionError

  /** The boolean entries of `oracleCache` (`ORACLE_CACHE_KEYS`). */
  datatype CacheKey =
    | UnprocessedWrapActionsJob       // isUnprocessedWrapActionsExecuting
    | UnwrapTokensOnEthJob            // isUnwrapTokensOnEthExecuting
    | UnwrapDomainsOnEthJob           // isUnwrapDomainsOnEthExecuting
    | UnwrapDomainsOnPolygonJob       // isUnwrapDomainsOnPolygonExecuting
    | WrapTokensLock                  // isWrapTokensExecuting
    | WrapDomainByEthLock             // isWrapDomainByETHExecuting
    | WrapDomainByMaticLock           // isWrapDomainByMATICExecuting

  type Files = map<Path, string>
  type Cache = map<CacheKey, bool>

  /** `oracleCache.get(key)` used as a condition: an absent key is falsy. */
  predicate IsSet(cache: Cache, key: CacheKey) {
    key in cache && cache[key]
  }

  /** What `appendFileSync` finds: a missing file counts as empty. */
  function Content(files: Files, p: Path): string {
    if p in files then files[p] else ""
  }

  /** `appendFileSync(p, text)`: creates the file when it is missing. */
  function Appended(files: Files, p: Path, text: string): Files
  {
    files[p := Content(files, p) + text]
  }

  /** Setting a flag twice leaves the second value. */
  lemma CacheUpdateTwice(cache: Cache, key: CacheKey, first: bool, second: bool)
    ensures cache[key := first][key := second] == cache[key := second]
  {
  }

  /** The file system and the cache of one oracle process. The numeric
      `lastBlockNumber` cache entry is kept apart from the boolean flags. */
  class Host {
    var files: Files
    var cache: Cache
    var lastBlockNumber: Option<int>

    constructor (files0: Files, cache0: Cache)
      ensures files == files0 && cache == cache0 && lastBlockNumber == None
    {
      files := files0;
      cache := cache0;
      lastBlockNumber := None;
    }
  }
}
