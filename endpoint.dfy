/** The request-level switches both routes share. */
module Endpoint {
  import opened Wrappers

  /** `cache=0`, `cache=false` or header `x-cache-bust: 1` skips the cache read. */
  predicate Bypass(cacheParam: Option<string>, cacheBust: Option<string>) {
    cacheParam == Some("0") || cacheParam == Some("false") || cacheBust == Some("1")
  }

  /** An environment variable counts as set when it is present and non-empty. */
  predicate EnvSet(v: Option<string>) {
    v.Some? && v.value != ""
  }
}
