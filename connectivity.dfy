/**
 * The connectivity preflight: one plain request per target before scanning,
 * keeping the targets that answer and stopping the process when none does.
 */
module Connectivity {

  /** How the preflight request for one target went. */
  datatype Attempt = FormatFailed | RequestFailed | Connected

  /** The reachable targets, or the process exit status when there are none. */
  datatype Preflight = Reachable(urls: seq<string>) | Exit(status: int)

  /** The first `n` targets whose attempt was `wanted`, in input order. */
  function Select(targets: seq<string>, attempt: nat -> Attempt, n: nat, wanted: Attempt): (kept: seq<string>)
    requires n <= |targets|
  {
    if n == 0 then []
    else Select(targets, attempt, n - 1, wanted) + (if attempt(n - 1) == wanted then [targets[n - 1]] else [])
  }

  /** The indices below `n` whose attempt was `wanted`, in increasing order. */
  function Indices(attempt: nat -> Attempt, n: nat, wanted: Attempt): (idx: seq<nat>)
  {
    if n == 0 then []
    else Indices(attempt, n - 1, wanted) + (if attempt(n - 1) == wanted then [n - 1] else [])
  }

  /**
   * `Select` keeps exactly the targets whose attempt was `wanted`, unchanged
   * and in their original order: its `k`-th element is the target at the
   * `k`-th such index.
   */
  lemma {:induction false} SelectByIndices(targets: seq<string>, attempt: nat -> Attempt, n: nat, wanted: Attempt)
    requires n <= |targets|
    ensures var idx := Indices(attempt, n, wanted);
            |Select(targets, attempt, n, wanted)| == |idx| &&
            (forall k :: 0 <= k < |idx| ==>
               idx[k] < n && attempt(idx[k]) == wanted && Select(targets, attempt, n, wanted)[k] == targets[idx[k]]) &&
            (forall k, l :: 0 <= k < l < |idx| ==> idx[k] < idx[l]) &&
            (forall i :: 0 <= i < n && attempt(i) == wanted ==> i in idx)
  {
    if n > 0 {
      SelectByIndices(targets, attempt, n - 1, wanted);
    }
  }

  /** Nothing is selected exactly when no attempt below `n` was `wanted`. */
  lemma {:induction false} SelectEmpty(targets: seq<string>, attempt: nat -> Attempt, n: nat, wanted: Attempt)
    requires n <= |targets|
    ensures Select(targets, attempt, n, wanted) == [] <==> forall i :: 0 <= i < n ==> attempt(i) != wanted
  {
    if n > 0 {
      SelectEmpty(targets, attempt, n - 1, wanted);
    }
  }

  /**
   * `connectivity_test`: tries every target in order, keeping those whose
   * request succeeds; a failed format is only logged, a failed request also
   * prints a "skipping" notice (returned in `notices`) unless `quiet`. With no
   * target kept, the process exits with status 1.
   */
  method ConnectivityTest(targets: seq<string>, attempt: nat -> Attempt, quiet: bool)
    returns (outcome: Preflight, notices: seq<string>)
    ensures outcome.Exit? <==> forall i :: 0 <= i < |targets| ==> attempt(i) != Connected
    ensures outcome.Exit? ==> outcome.status == 1
    ensures outcome.Reachable? ==> outcome.urls == Select(targets, attempt, |targets|, Connected)
    ensures notices == if quiet then [] else Select(targets, attempt, |targets|, RequestFailed)
  {
    var goodUrls: seq<string> := [];
    notices := [];
    for i := 0 to |targets|
      invariant goodUrls == Select(targets, attempt, i, Connected)
      invariant notices == if quiet then [] else Select(targets, attempt, i, RequestFailed)
    {
      match attempt(i)
      case FormatFailed =>
      case RequestFailed =>
        if !quiet {
          notices := notices + [targets[i]];
        }
      case Connected =>
        goodUrls := goodUrls + [targets[i]];
    }
    SelectEmpty(targets, attempt, |targets|, Connected);
    if goodUrls == [] {
      outcome := Exit(1);
    } else {
      outcome := Reachable(goodUrls);
    }
  }

  /** Of a reachable and an unreachable target, only the reachable one is kept. */
  method DeadTargetDropped() returns (outcome: Preflight)
    ensures outcome == Reachable(["https://good.example"])
  {
    var attempt := (i: nat) => if i == 0 then Connected else RequestFailed;
    var notices;
    outcome, notices := ConnectivityTest(["https://good.example", "https://dead.example"], attempt, false);
    assert Select(["https://good.example", "https://dead.example"], attempt, 2, Connected) == ["https://good.example"];
  }
}
