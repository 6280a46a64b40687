// Static configuration values of the add-in (frontend/src/core/config.js).
module Config {
  /** Time-to-live of the cached column map, in milliseconds (90 s). */
  const ColumnMapTtlMs: int := 90 * 1000

  /** Ceiling on the number of data rows a column descriptor may span. */
  const MaxDataRowsPerColumn: nat := 50000

  /** Number of attempts `fetchWithRetry` makes before giving up. */
  const MaxBackendRetries: nat := 3
}
