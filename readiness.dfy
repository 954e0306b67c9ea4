/**
 * The readiness wait (SonarQube.waitForReady): GET the server's root URL until
 * an attempt yields a response with status 200; a transport failure or any
 * other status is followed by a 5000 ms sleep and another attempt. The
 * successive outcomes of the GET are given as a sequence, and the sleeps are
 * recorded instead of performed.
 */
module Readiness {
  import opened Http

  const RETRY_DELAY_MS := 5000

  /** The loop leaves only on a non-null response whose status is 200. */
  predicate IsReady(o: HttpOutcome)
  {
    o.Response? && o.status == HTTP_OK
  }

  /** The server answers 200 at some attempt; otherwise the source never returns. */
  predicate EventuallyReady(outcomes: seq<HttpOutcome>)
  {
    exists i :: 0 <= i < |outcomes| && IsReady(outcomes[i])
  }

  /** The index of the first ready outcome. */
  function FirstReady(outcomes: seq<HttpOutcome>): (k: nat)
    requires EventuallyReady(outcomes)
    ensures k < |outcomes| && IsReady(outcomes[k])
    ensures forall j :: 0 <= j < k ==> !IsReady(outcomes[j])
  {
    if IsReady(outcomes[0]) then 0
    else
      assert EventuallyReady(outcomes[1..]) by {
        var i :| 0 <= i < |outcomes| && IsReady(outcomes[i]);
        assert outcomes[1..][i - 1] == outcomes[i];
      }
      1 + FirstReady(outcomes[1..])
  }

  /**
   * waitForReady: returns the number of GETs made and the sleeps taken between them.
   * Exactly the attempts up to and including the first 200 are made, and one
   * 5000 ms sleep follows every attempt before it.
   */
  method WaitForReady(outcomes: seq<HttpOutcome>) returns (attempts: nat, sleeps: seq<int>)
    requires EventuallyReady(outcomes)
    ensures attempts == FirstReady(outcomes) + 1
    ensures 0 < attempts <= |outcomes| && IsReady(outcomes[attempts - 1])
    ensures forall j :: 0 <= j < attempts - 1 ==> !IsReady(outcomes[j])
    ensures |sleeps| == attempts - 1
    ensures forall j :: 0 <= j < |sleeps| ==> sleeps[j] == RETRY_DELAY_MS
  {
    ghost var first := FirstReady(outcomes);
    attempts, sleeps := 0, [];
    while true
      invariant attempts <= first
      invariant |sleeps| == attempts
      invariant forall j :: 0 <= j < |sleeps| ==> sleeps[j] == RETRY_DELAY_MS
      decreases first - attempts
    {
      var response := outcomes[attempts];
      attempts := attempts + 1;
      if response.Response? && response.status == HTTP_OK {
        break;
      }
      sleeps := sleeps + [RETRY_DELAY_MS];
    }
  }

  /** A cold start: two refused connections and a 503 before the 200 make four attempts and three sleeps. */
  method ColdStartExample() returns (attempts: nat, sleeps: seq<int>)
    ensures attempts == 4 && sleeps == [RETRY_DELAY_MS, RETRY_DELAY_MS, RETRY_DELAY_MS]
  {
    var outcomes := [TransportFailure, TransportFailure, Response(503), Response(HTTP_OK)];
    assert IsReady(outcomes[3]);
    attempts, sleeps := WaitForReady(outcomes);
    assert !IsReady(outcomes[0]) && !IsReady(outcomes[1]) && !IsReady(outcomes[2]);
  }

  /** Outcomes after the first 200 are never looked at. */
  lemma LaterOutcomesIrrelevant(outcomes: seq<HttpOutcome>, rest: seq<HttpOutcome>)
    requires EventuallyReady(outcomes)
    ensures EventuallyReady(outcomes + rest)
    ensures FirstReady(outcomes + rest) == FirstReady(outcomes)
  {
    var k := FirstReady(outcomes);
    assert (outcomes + rest)[k] == outcomes[k];
    FirstReadyUnique(outcomes + rest, k);
  }

  /** A ready outcome with no ready one before it is the first. */
  lemma FirstReadyUnique(outcomes: seq<HttpOutcome>, k: nat)
    requires k < |outcomes| && IsReady(outcomes[k])
    requires forall j :: 0 <= j < k ==> !IsReady(outcomes[j])
    ensures EventuallyReady(outcomes) && FirstReady(outcomes) == k
  {
  }
}
