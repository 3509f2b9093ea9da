/**
 * download_data_with_retry (stock_screener.py:281-294): up to MaxRetries
 * download attempts, backing off after rate-limit errors and giving up at
 * once on any other error. Sleeps are recorded as a list of wait amounts.
 */
module Download {
  import opened Config
  import opened Strings
  import opened Crossover

  /** The outcome of one call to the market-data provider: data, or an exception with its message. */
  datatype Attempt = Delivered(frame: Frame) | Raised(message: string)

  /** The provider's outcomes, attempt by attempt (0-based). */
  type Provider = nat -> Attempt

  /** An error counts as rate limiting when its message mentions either phrase. */
  predicate IsRateLimit(message: string)
  {
    Contains(message, "Rate limited") || Contains(message, "Too Many Requests")
  }

  /** The rate-limit test holds exactly when one of the two phrases occurs somewhere in the message. */
  lemma RateLimitIff(message: string)
    ensures IsRateLimit(message) <==>
      (exists i :: OccursAt(message, "Rate limited", i)) || (exists i :: OccursAt(message, "Too Many Requests", i))
  {
    ContainsIff(message, "Rate limited");
    ContainsIff(message, "Too Many Requests");
  }

  predicate RateLimited(a: Attempt)
  {
    a.Raised? && IsRateLimit(a.message)
  }

  /** The empty DataFrame returned on failure. */
  const EmptyFrame: Frame := map[]

  /** What a run of attempts did: the frame returned, the waits slept, the number of calls made. */
  datatype Fetch = Fetch(frame: Frame, waits: seq<nat>, calls: nat)

  /** The attempts from number `k` on, as the loop makes them. */
  function RetryFrom(outcome: Provider, k: nat): (r: Fetch)
    requires k <= MaxRetries
    ensures |r.waits| <= r.calls <= MaxRetries - k
    ensures k < MaxRetries ==> 1 <= r.calls
    decreases MaxRetries - k
  {
    if k == MaxRetries then Fetch(EmptyFrame, [], 0)
    else match outcome(k)
      case Delivered(f) => Fetch(f, [], 1)
      case Raised(msg) =>
        if IsRateLimit(msg) then
          var rest := RetryFrom(outcome, k + 1);
          Fetch(rest.frame, [BackoffUnit * (k + 1)] + rest.waits, 1 + rest.calls)
        else Fetch(EmptyFrame, [], 1)
  }

  /**
   * The shape of every run of attempts from number `k` on: at most the
   * remaining attempts and at least one; every attempt before the last one
   * made was rate limited, and the last one was not unless no attempts were
   * left; attempt j was followed by a wait of 60 * (j + 1), exactly when it was
   * rate limited; the frame is the last attempt's data if it delivered, the
   * empty frame otherwise.
   */
  lemma {:induction false} RetryShape(outcome: Provider, k: nat)
    requires k < MaxRetries
    ensures var r := RetryFrom(outcome, k); var last := outcome(k + r.calls - 1);
      && 1 <= r.calls <= MaxRetries - k
      && (forall j :: k <= j < k + r.calls - 1 ==> RateLimited(outcome(j)))
      && (k + r.calls < MaxRetries ==> !RateLimited(last))
      && |r.waits| == (if RateLimited(last) then r.calls else r.calls - 1)
      && (forall j :: 0 <= j < |r.waits| ==> r.waits[j] == BackoffUnit * (k + j + 1))
      && r.frame == (if last.Delivered? then last.frame else EmptyFrame)
    decreases MaxRetries - k
  {
    if RateLimited(outcome(k)) && k + 1 < MaxRetries {
      RetryShape(outcome, k + 1);
    }
  }

  /**
   * One step of the attempts: what attempt `k` contributes to the frame, to
   * the waits already slept (`slept`) and to the calls, before handing over
   * to attempt `k + 1`.
   */
  lemma RetryStep(outcome: Provider, k: nat, slept: seq<nat>)
    requires k < MaxRetries
    ensures var now := RetryFrom(outcome, k);
      !RateLimited(outcome(k)) ==>
        && now.frame == (if outcome(k).Delivered? then outcome(k).frame else EmptyFrame)
        && slept + now.waits == slept
        && now.calls == 1
    ensures var now := RetryFrom(outcome, k); var next := RetryFrom(outcome, k + 1);
      RateLimited(outcome(k)) ==>
        && now.frame == next.frame
        && slept + now.waits == (slept + [BackoffUnit * (k + 1)]) + next.waits
        && now.calls == 1 + next.calls
  {
    if RateLimited(outcome(k)) {
      var next := RetryFrom(outcome, k + 1);
      assert slept + ([BackoffUnit * (k + 1)] + next.waits) == (slept + [BackoffUnit * (k + 1)]) + next.waits;
    } else {
      assert slept + [] == slept;
    }
  }

  /** The retry loop itself. */
  method DownloadWithRetry(outcome: Provider) returns (frame: Frame, waits: seq<nat>, calls: nat)
    ensures Fetch(frame, waits, calls) == RetryFrom(outcome, 0)
  {
    waits := [];
    calls := 0;
    var attempt := 0;
    ghost var total := RetryFrom(outcome, 0);
    while attempt < MaxRetries
      invariant attempt <= MaxRetries && calls == attempt
      invariant total.frame == RetryFrom(outcome, attempt).frame
      invariant total.waits == waits + RetryFrom(outcome, attempt).waits
      invariant total.calls == attempt + RetryFrom(outcome, attempt).calls
    {
      calls := calls + 1;
      var a := outcome(attempt);
      RetryStep(outcome, attempt, waits);
      if a.Delivered? {
        return a.frame, waits, calls;
      }
      if IsRateLimit(a.message) {
        waits := waits + [BackoffUnit * (attempt + 1)];
      } else {
        return EmptyFrame, waits, calls;
      }
      attempt := attempt + 1;
    }
    assert waits + RetryFrom(outcome, attempt).waits == waits;
    frame := EmptyFrame;
  }

  /** The first delivered attempt, if every attempt before it was rate limited, is what is returned. */
  lemma ReturnsFirstDelivery(outcome: Provider, k: nat)
    requires k < MaxRetries && outcome(k).Delivered?
    requires forall j :: 0 <= j < k ==> RateLimited(outcome(j))
    ensures RetryFrom(outcome, 0) == Fetch(outcome(k).frame, seq(k, j requires 0 <= j < k => BackoffUnit * (j + 1)), k + 1)
  {
    RetryShape(outcome, 0);
  }

  /** A non-rate-limit error ends the download at once with the empty frame. */
  lemma AbortsOnOtherError(outcome: Provider, k: nat)
    requires k < MaxRetries && outcome(k).Raised? && !IsRateLimit(outcome(k).message)
    requires forall j :: 0 <= j < k ==> RateLimited(outcome(j))
    ensures RetryFrom(outcome, 0) == Fetch(EmptyFrame, seq(k, j requires 0 <= j < k => BackoffUnit * (j + 1)), k + 1)
  {
    RetryShape(outcome, 0);
  }

  /** Three rate-limited attempts give the empty frame after waits of 60, 120 and 180 seconds. */
  lemma ExhaustedAfterThreeRateLimits(outcome: Provider)
    requires forall j :: 0 <= j < MaxRetries ==> RateLimited(outcome(j))
    ensures RetryFrom(outcome, 0) == Fetch(EmptyFrame, [60, 120, 180], 3)
  {
    RetryShape(outcome, 0);
  }
}
