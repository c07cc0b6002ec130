/**
 * Wildcard detection: a single probe (`make_wildcard_request`) and the
 * two-probe differential classifier built on it (`wildcard_test`).
 * The HTTP exchange of each probe is an input: whether the URL could be
 * formatted, whether the request went through, and what came back.
 */
module Wildcard {
  import opened Types
  import opened Filters
  import Tokens

  /** The process-wide configuration the probes read. */
  datatype Config = Config(
    dontFilter: bool,        // `--dont-filter`
    quiet: bool,             // `--quiet`
    statusCodes: set<u16>    // the status codes reported as hits
  )

  /** A `Location` header value: text when it is visible ASCII, opaque otherwise. */
  datatype HeaderValue = Visible(text: string) | Opaque

  /**
   * A response to a probe: its status, content length, the length of the
   * path of its URL (`get_url_path_length`), its `Location` header if any,
   * and whether the response filters want it hidden from the user
   * (`should_filter_response`).
   */
  datatype Reply = Reply(
    status: u16,
    contentLength: u64,
    pathLength: u64,
    location: Option<HeaderValue>,
    suppressed: bool
  )

  /** How one probe's exchange went: `format_url` failed, `make_request` failed, or a reply arrived. */
  datatype Exchange = FormatError | TransportError | Replied(reply: Reply)

  /** Advisory messages, each printed and forwarded to the output file. */
  datatype Advisory =
    | Got(status: u16, contentLength: u64, pathLength: u64)   // "Got <status> for <url>"
    | RedirectsTo(contentLength: u64, target: string)          // "<url> redirects to => <target>"
    | DynamicWildcard(offset: u64)                              // "Wildcard response is dynamic"
    | StaticWildcard(size: u64)                                 // "Wildcard response is static"

  /** What one probe yields: the wildcard response, if any, and the messages it emitted. */
  datatype ProbeReport = ProbeReport(response: Option<Reply>, advisories: seq<Advisory>)

  /**
   * What the classifier yields: the filter, if any, how many probes it issued,
   * and every message emitted, in order.
   */
  datatype Classification = Classification(filter: Option<WildcardFilter>, probes: nat, advisories: seq<Advisory>)

  /** `StatusCode::is_redirection`. */
  predicate IsRedirection(status: u16)
  {
    300 <= status <= 399
  }

  /** `to_str().unwrap_or("Unknown")` on a header value. */
  function LocationText(h: HeaderValue): string
  {
    match h
    case Visible(text) => text
    case Opaque => "Unknown"
  }

  /** A probe finds a wildcard exactly when the request is made and answered with a configured status code. */
  predicate Interesting(cfg: Config, exchange: Exchange)
  {
    exchange.Replied? && exchange.reply.status in cfg.statusCodes
  }

  /** `make_wildcard_request`: classifies one probe's exchange and emits its messages. */
  function WildcardRequest(cfg: Config, exchange: Exchange): (r: ProbeReport)
    ensures r.response.Some? <==> Interesting(cfg, exchange)
    ensures r.response.Some? ==> r.response.value == exchange.reply
    ensures cfg.quiet || r.response.None? ==> r.advisories == []
    ensures |r.advisories| <= 2
    ensures r.response.Some? && !cfg.quiet && !exchange.reply.suppressed ==>
              |r.advisories| >= 1 &&
              r.advisories[0] == Got(exchange.reply.status, exchange.reply.contentLength, exchange.reply.pathLength)
    ensures |r.advisories| == 2 <==>
              r.response.Some? && !cfg.quiet && !exchange.reply.suppressed &&
              IsRedirection(exchange.reply.status) && exchange.reply.location.Some?
    ensures exchange.Replied? && exchange.reply.suppressed ==> r.advisories == []
    ensures |r.advisories| == 2 ==>
              r.advisories[1] == RedirectsTo(exchange.reply.contentLength, LocationText(exchange.reply.location.value))
  {
    match exchange
    case FormatError => ProbeReport(None, [])
    case TransportError => ProbeReport(None, [])
    case Replied(reply) =>
      if reply.status !in cfg.statusCodes then ProbeReport(None, [])
      else
        var shown := !cfg.quiet && !reply.suppressed;
        var got := if shown then [Got(reply.status, reply.contentLength, reply.pathLength)] else [];
        var redirect :=
          if shown && IsRedirection(reply.status) && reply.location.Some?
          then [RedirectsTo(reply.contentLength, LocationText(reply.location.value))]
          else [];
        ProbeReport(Some(reply), got + redirect)
  }

  /**
   * Step 5 of `wildcard_test`: derives the filter from the first wildcard
   * response's length `l1` and path length `p` and the second probe's response.
   */
  function Differential(cfg: Config, l1: u64, p: u64, second: Option<Reply>): (r: (WildcardFilter, seq<Advisory>))
  {
    match second
    case None => (Default, [])
    case Some(two) =>
      if two.contentLength == WrappingAdd(l1, 2 * Tokens.UUID_LENGTH) then
        var f := WildcardFilter(0, WrappingSub(l1, p));
        (f, if cfg.quiet then [] else [DynamicWildcard(f.dynamic)])
      else if l1 == two.contentLength then
        (WildcardFilter(l1, 0), if cfg.quiet then [] else [StaticWildcard(l1)])
      else
        (Default, [])
  }

  /**
   * `wildcard_test`: probes with a 1-unit token and, when that finds a
   * non-empty wildcard response, with a 3-unit token, and classifies the
   * target from the two content lengths.
   */
  function WildcardTest(cfg: Config, first: Exchange, second: Exchange): (r: Classification)
    ensures r.filter.None? <==> cfg.dontFilter || !Interesting(cfg, first)
    ensures cfg.dontFilter ==> r.probes == 0 && r.advisories == []
    ensures !cfg.dontFilter ==> 1 <= r.probes <= 2
    ensures r.probes == 2 <==> !cfg.dontFilter && Interesting(cfg, first) && first.reply.contentLength != 0
    ensures r.filter.Some? ==> r.filter.value.size == 0 || r.filter.value.dynamic == 0
    ensures cfg.quiet ==> r.advisories == []
    ensures !cfg.dontFilter && r.probes == 1 ==> r.advisories == WildcardRequest(cfg, first).advisories
    ensures r.probes == 2 ==>
              var probed := WildcardRequest(cfg, first).advisories + WildcardRequest(cfg, second).advisories;
              probed <= r.advisories && |r.advisories| <= |probed| + 1 &&
              (|r.advisories| == |probed| + 1 ==>
                 r.advisories[|probed|] == StaticWildcard(r.filter.value.size) ||
                 r.advisories[|probed|] == DynamicWildcard(r.filter.value.dynamic))
  {
    if cfg.dontFilter then Classification(None, 0, [])
    else
      var one := WildcardRequest(cfg, first);
      match one.response
      case None => Classification(None, 1, one.advisories)
      case Some(resp) =>
        if resp.contentLength == 0 then Classification(Some(Default), 1, one.advisories)
        else
          var two := WildcardRequest(cfg, second);
          var (f, note) := Differential(cfg, resp.contentLength, resp.pathLength, two.response);
          Classification(Some(f), 2, one.advisories + two.advisories + note)
  }

  /** With filtering disabled nothing is probed and no filter is returned. */
  lemma DontFilterSkipsProbes(cfg: Config, first: Exchange, second: Exchange)
    requires cfg.dontFilter
    ensures WildcardTest(cfg, first, second) == Classification(None, 0, [])
  {
  }

  /** A first probe that finds nothing (format error, transport error, other status) means no filter. */
  lemma FirstProbeMissMeansNoFilter(cfg: Config, first: Exchange, second: Exchange)
    requires !cfg.dontFilter && !Interesting(cfg, first)
    ensures WildcardTest(cfg, first, second).filter == None
    ensures WildcardTest(cfg, first, second).probes == 1
  {
  }

  /** An empty first wildcard response gives the default filter and no second probe. */
  lemma ZeroLengthWildcard(cfg: Config, first: Exchange, second: Exchange)
    requires !cfg.dontFilter && Interesting(cfg, first) && first.reply.contentLength == 0
    ensures WildcardTest(cfg, first, second).filter == Some(Default)
    ensures WildcardTest(cfg, first, second).probes == 1
    ensures WildcardTest(cfg, first, second).advisories == WildcardRequest(cfg, first).advisories
  {
  }

  /**
   * A second response exactly `2 * UUID_LENGTH` longer than the first makes
   * the wildcard dynamic, with offset `L1 - P`; when `P < L1` the filter
   * marks the first probe's own response as noise, and also the second one's
   * when its path is the 64 extra token characters longer. When `P == L1` the
   * offset is 0 and the filter is the inert default.
   */
  lemma DynamicWildcardOffset(cfg: Config, first: Exchange, second: Exchange)
    requires !cfg.dontFilter && Interesting(cfg, first) && first.reply.contentLength != 0
    requires Interesting(cfg, second)
    requires first.reply.contentLength + 2 * Tokens.UUID_LENGTH == second.reply.contentLength
    requires first.reply.pathLength <= first.reply.contentLength
    ensures var f := WildcardFilter(0, first.reply.contentLength - first.reply.pathLength);
            WildcardTest(cfg, first, second).filter == Some(f)
    ensures first.reply.pathLength == first.reply.contentLength ==>
              WildcardTest(cfg, first, second).filter == Some(Default)
    ensures var f := WildcardTest(cfg, first, second).filter.value;
            f.dynamic != 0 ==>
              IsWildcardNoise(f, first.reply.contentLength, first.reply.pathLength) &&
              (second.reply.pathLength == first.reply.pathLength + 2 * Tokens.UUID_LENGTH ==>
                 IsWildcardNoise(f, second.reply.contentLength, second.reply.pathLength))
    ensures !cfg.quiet ==>
              var f := WildcardTest(cfg, first, second).filter.value;
              WildcardTest(cfg, first, second).advisories[|WildcardTest(cfg, first, second).advisories| - 1]
                == DynamicWildcard(f.dynamic)
    ensures !cfg.quiet ==>
              WildcardTest(cfg, first, second).advisories ==
                WildcardRequest(cfg, first).advisories + WildcardRequest(cfg, second).advisories +
                [DynamicWildcard(first.reply.contentLength - first.reply.pathLength)]
  {
  }

  /**
   * When the path is longer than the first response (`P > L1`), the `u64`
   * subtraction wraps: the offset becomes `L1 - P + 2^64`, larger than the
   * response it was derived from.
   */
  lemma DynamicOffsetUnderflow(cfg: Config, first: Exchange, second: Exchange)
    requires !cfg.dontFilter && Interesting(cfg, first) && first.reply.contentLength != 0
    requires Interesting(cfg, second)
    requires first.reply.contentLength + 2 * Tokens.UUID_LENGTH == second.reply.contentLength
    requires first.reply.contentLength < first.reply.pathLength
    ensures WildcardTest(cfg, first, second).filter.Some?
    ensures var f := WildcardTest(cfg, first, second).filter.value;
            f.size == 0 &&
            f.dynamic == first.reply.contentLength - first.reply.pathLength + U64_LIMIT &&
            f.dynamic > first.reply.contentLength
    ensures !cfg.quiet ==>
              WildcardTest(cfg, first, second).advisories ==
                WildcardRequest(cfg, first).advisories + WildcardRequest(cfg, second).advisories +
                [DynamicWildcard(WildcardTest(cfg, first, second).filter.value.dynamic)]
  {
  }

  /** Two responses of equal, nonzero length make the wildcard static, with that size. */
  lemma StaticWildcardSize(cfg: Config, first: Exchange, second: Exchange)
    requires !cfg.dontFilter && Interesting(cfg, first) && first.reply.contentLength != 0
    requires Interesting(cfg, second)
    requires second.reply.contentLength == first.reply.contentLength
    ensures WildcardTest(cfg, first, second).filter == Some(WildcardFilter(first.reply.contentLength, 0))
    ensures forall p: u64 :: IsWildcardNoise(WildcardTest(cfg, first, second).filter.value, first.reply.contentLength, p)
    ensures !cfg.quiet ==>
              WildcardTest(cfg, first, second).advisories[|WildcardTest(cfg, first, second).advisories| - 1]
                == StaticWildcard(first.reply.contentLength)
    ensures !cfg.quiet ==>
              WildcardTest(cfg, first, second).advisories ==
                WildcardRequest(cfg, first).advisories + WildcardRequest(cfg, second).advisories +
                [StaticWildcard(first.reply.contentLength)]
  {
  }

  /**
   * A non-empty wildcard whose second probe finds nothing, or whose lengths
   * fit neither pattern, still yields a filter: the inert default.
   */
  lemma UnclassifiedWildcard(cfg: Config, first: Exchange, second: Exchange)
    requires !cfg.dontFilter && Interesting(cfg, first) && first.reply.contentLength != 0
    requires !Interesting(cfg, second) ||
             (second.reply.contentLength != WrappingAdd(first.reply.contentLength, 2 * Tokens.UUID_LENGTH) &&
              second.reply.contentLength != first.reply.contentLength)
    ensures WildcardTest(cfg, first, second).filter == Some(Default)
    ensures WildcardTest(cfg, first, second).probes == 2
    ensures WildcardTest(cfg, first, second).advisories ==
              WildcardRequest(cfg, first).advisories + WildcardRequest(cfg, second).advisories
  {
  }

  /**
   * When `L1 + 64` overflows `u64`, the wrapped sum is what the second length
   * is compared with: a second response of length `L1 + 64 - 2^64` also makes
   * the wildcard dynamic, with offset `L1 - P` (wrapped when `P > L1`).
   */
  lemma DynamicWildcardWrappedSum(cfg: Config, first: Exchange, second: Exchange)
    requires !cfg.dontFilter && Interesting(cfg, first) && first.reply.contentLength != 0
    requires Interesting(cfg, second)
    requires first.reply.contentLength + 2 * Tokens.UUID_LENGTH >= U64_LIMIT
    requires second.reply.contentLength == first.reply.contentLength + 2 * Tokens.UUID_LENGTH - U64_LIMIT
    ensures second.reply.contentLength < first.reply.contentLength
    ensures WildcardTest(cfg, first, second).filter ==
              Some(WildcardFilter(0, WrappingSub(first.reply.contentLength, first.reply.pathLength)))
    ensures WildcardTest(cfg, first, second).probes == 2
    ensures !cfg.quiet ==>
              WildcardTest(cfg, first, second).advisories ==
                WildcardRequest(cfg, first).advisories + WildcardRequest(cfg, second).advisories +
                [DynamicWildcard(WildcardTest(cfg, first, second).filter.value.dynamic)]
  {
  }

  /**
   * The default filter does not tell an empty wildcard response apart from an
   * unclassifiable one: both classifications return `Some(Default)`.
   */
  lemma DefaultFilterIsAmbiguous(cfg: Config, empty: Exchange, nonEmpty: Exchange, second: Exchange, other: Exchange)
    requires !cfg.dontFilter && Interesting(cfg, empty) && empty.reply.contentLength == 0
    requires Interesting(cfg, nonEmpty) && nonEmpty.reply.contentLength != 0 && !Interesting(cfg, second)
    ensures WildcardTest(cfg, empty, other).filter == WildcardTest(cfg, nonEmpty, second).filter == Some(Default)
  {
  }
}
