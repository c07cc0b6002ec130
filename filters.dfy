/** The filter value produced by wildcard detection. */
module Filters {
  import opened Types

  /**
   * A wildcard filter: a nonzero `size` marks every response of exactly that
   * content length as wildcard noise; a nonzero `dynamic` marks every response
   * whose content length is `dynamic` plus the length of its own URL path.
   */
  datatype WildcardFilter = WildcardFilter(size: u64, dynamic: u64)

  /** `WildcardFilter::default()`: no actionable filter. */
  const Default: WildcardFilter := WildcardFilter(0, 0)

  /** Whether a response of the given content length and URL path length is wildcard noise under `f`. */
  predicate IsWildcardNoise(f: WildcardFilter, contentLength: u64, pathLength: u64)
  {
    (f.size != 0 && contentLength == f.size) ||
    (f.dynamic != 0 && contentLength == f.dynamic + pathLength)
  }
}
