/**
  The inference cadence of the frame loop: which frames are sent to the model with the
  infer flag, what is handed to the encoder, and what the counters say.
 */
module FrameLoop {

  /** What becomes of one call of the model's `on_frame` and of its result. */
  datatype Call =
    | Raises
    | ReturnsNone
    | ReturnsFrame            // without an inference result, or with one that is queued
    | ReturnsRejectedResult   // queueing the inference result raises

  /** A frame handed to the encoder: the received one, or the model's. */
  datatype Output = Received(i: nat) | Processed(i: nat)

  /** How many of the first `n` calls raised. */
  function Raised(calls: seq<Call>, n: nat): (r: nat)
    requires n <= |calls|
    ensures r <= n
  {
    if n == 0 then 0 else Raised(calls, n - 1) + if calls[n - 1].Raises? then 1 else 0
  }

  /**
    The i-th frame asks for inference: the frames before it whose call did not raise
    number a multiple of the interval.
   */
  predicate Infers(calls: seq<Call>, interval: nat, i: nat)
    requires i < |calls| && interval > 0
  {
    (i - Raised(calls, i)) % interval == 0
  }

  /** How many of the first `n` frames ask for inference and meet `kind`. */
  function Attempts(calls: seq<Call>, interval: nat, n: nat, kind: Call -> bool): (r: nat)
    requires n <= |calls| && interval > 0
  {
    if n == 0 then 0
    else Attempts(calls, interval, n - 1, kind) + if Infers(calls, interval, n - 1) && kind(calls[n - 1]) then 1 else 0
  }

  function CeilDiv(a: nat, b: nat): nat
    requires b > 0
  {
    (a + b - 1) / b
  }

  /** What one frame hands on. */
  function OutputsOf(call: Call, i: nat): seq<Output> {
    match call
    case Raises => [Received(i)]
    case ReturnsNone => []
    case ReturnsFrame => [Processed(i)]
    case ReturnsRejectedResult => [Received(i)]
  }

  function Outputs(calls: seq<Call>, n: nat): seq<Output>
    requires n <= |calls|
  {
    if n == 0 then [] else Outputs(calls, n - 1) + OutputsOf(calls[n - 1], n - 1)
  }

  function PassedThrough(n: nat): (r: seq<Output>)
    ensures |r| == n && forall i :: 0 <= i < n ==> r[i] == Received(i)
  {
    if n == 0 then [] else PassedThrough(n - 1) + [Received(n - 1)]
  }

  const FAILS := (c: Call) => c.Raises? || c.ReturnsRejectedResult?
  const SUCCEEDS := (c: Call) => !c.Raises?
  const ANY := (c: Call) => true
  const REJECTED := (c: Call) => c.ReturnsRejectedResult?

  /** The pipeline's global counters. */
  class Counters {
    var received: nat
    var inferenceSuccess: nat
    var inferenceFailure: nat

    constructor ()
      ensures received == inferenceSuccess == inferenceFailure == 0
    {
      received, inferenceSuccess, inferenceFailure := 0, 0, 0;
    }

    /** The loop over the decoded frames of a run that began with reset counters. */
    method ProcessedFrames(interval: nat, calls: seq<Call>) returns (outputs: seq<Output>, frameIndex: nat)
      requires received == inferenceSuccess == inferenceFailure == 0
      modifies this
      ensures received == |calls|
      ensures interval == 0 ==>
                outputs == PassedThrough(|calls|) && inferenceSuccess == inferenceFailure == frameIndex == 0
      ensures interval > 0 ==>
                && outputs == Outputs(calls, |calls|)
                && received == frameIndex + Raised(calls, |calls|)
                && inferenceSuccess == CeilDiv(frameIndex, interval)
                && inferenceFailure == Attempts(calls, interval, |calls|, FAILS)
    {
      frameIndex, outputs := 0, [];
      for i := 0 to |calls|
        invariant received == i
        invariant interval == 0 ==>
            outputs == PassedThrough(i) && inferenceSuccess == inferenceFailure == frameIndex == 0
        invariant interval > 0 ==>
                    && outputs == Outputs(calls, i)
                    && received == frameIndex + Raised(calls, i)
                    && inferenceSuccess == CeilDiv(frameIndex, interval)
                    && inferenceFailure == Attempts(calls, interval, i, FAILS)
      {
        received := received + 1;
        if interval == 0 {
          outputs := outputs + [Received(i)];
          continue;
        }
        CeilStep(frameIndex, interval);
        var shouldInfer := frameIndex % interval == 0;
        assert shouldInfer <==> Infers(calls, interval, i);
        match calls[i] {
          case Raises =>
            if shouldInfer {
              inferenceFailure := inferenceFailure + 1;
            }
            outputs := outputs + [Received(i)];
          case ReturnsNone =>
            frameIndex := frameIndex + 1;
            if shouldInfer {
              inferenceSuccess := inferenceSuccess + 1;
            }
            assert outputs + [] == outputs;
          case ReturnsFrame =>
            frameIndex := frameIndex + 1;
            if shouldInfer {
              inferenceSuccess := inferenceSuccess + 1;
            }
            outputs := outputs + [Processed(i)];
          case ReturnsRejectedResult =>
            frameIndex := frameIndex + 1;
            if shouldInfer {
              inferenceSuccess := inferenceSuccess + 1;
              inferenceFailure := inferenceFailure + 1;
            }
            outputs := outputs + [Received(i)];
        }
      }
    }
  }

  lemma CeilStep(a: nat, b: nat)
    requires b > 0
    ensures CeilDiv(a + 1, b) == CeilDiv(a, b) + if a % b == 0 then 1 else 0
  {
    var q, r := a / b, a % b;
    assert a == q * b + r;
    OneMore(q, b);
    if r == 0 {
      DivIs(a + b - 1, b, q, b - 1);
      DivIs(a + b, b, q + 1, 0);
    } else {
      DivIs(a + b - 1, b, q + 1, r - 1);
      DivIs(a + b, b, q + 1, r);
    }
  }

  lemma OneMore(q: int, b: int)
    ensures (q + 1) * b == q * b + b
  {
  }

  lemma Distribute(q: int, p: int, b: int)
    ensures q * b - p * b == (q - p) * b
  {
  }

  lemma AtLeastOnce(d: int, b: int)
    requires d >= 1 && b > 0
    ensures d * b >= b
  {
  }

  /** Division with remainder is unique. */
  lemma DivIs(a: int, b: int, q: int, r: int)
    requires b > 0 && a == q * b + r && 0 <= r < b
    ensures a / b == q
  {
    var p := a / b;
    var s := a % b;
    assert a == p * b + s && 0 <= s < b;
    Distribute(q, p, b);
    if q > p {
      AtLeastOnce(q - p, b);
    } else if q < p {
      Distribute(p, q, b);
      AtLeastOnce(p - q, b);
    }
  }

  // ---------- What the counters mean ----------

  /** Rounded up: so many intervals are begun by `a` frames. */
  lemma CeilDivIs(a: nat, b: nat)
    requires b > 0
    ensures var q := CeilDiv(a, b); b * q >= a && (a > 0 ==> q > 0 && b * (q - 1) < a) && (a == 0 ==> q == 0)
  {
    var q, r := (a + b - 1) / b, (a + b - 1) % b;
    assert a + b - 1 == b * q + r;
    assert b * (q - 1) == b * q - b;
    if a == 0 {
      DivIs(b - 1, b, 0, b - 1);
    }
  }

  /** Attempts that did not raise are exactly one in `interval` of the frames the model accepted. */
  lemma {:induction false} SuccessesAreCeil(calls: seq<Call>, interval: nat, n: nat)
    requires n <= |calls| && interval > 0
    ensures Attempts(calls, interval, n, SUCCEEDS) == CeilDiv(n - Raised(calls, n), interval)
  {
    if n == 0 {
      DivIs(interval - 1, interval, 0, interval - 1);
    } else {
      SuccessesAreCeil(calls, interval, n - 1);
      CeilStep(n - 1 - Raised(calls, n - 1), interval);
    }
  }

  /** An attempt that fails is retried on every following frame until a call does not raise. */
  lemma {:induction false} FailedAttemptIsRetried(calls: seq<Call>, interval: nat, i: nat, j: nat)
    requires interval > 0 && i <= j < |calls| && forall k :: i <= k < j ==> calls[k].Raises?
    ensures Infers(calls, interval, j) <==> Infers(calls, interval, i)
    decreases j - i
  {
    if i < j {
      FailedAttemptIsRetried(calls, interval, i, j - 1);
    }
  }

  /**
    Successes and failures add up to the attempts exactly when no attempt's result was
    rejected: such an attempt counts as both.
   */
  lemma {:induction false} OutcomesAddUp(calls: seq<Call>, interval: nat, n: nat)
    requires n <= |calls| && interval > 0
    ensures Attempts(calls, interval, n, SUCCEEDS) + Attempts(calls, interval, n, FAILS)
         == Attempts(calls, interval, n, ANY) + Attempts(calls, interval, n, REJECTED)
  {
    if n > 0 {
      OutcomesAddUp(calls, interval, n - 1);
    }
  }

  /** The position of the frame an output carries. */
  function FrameOf(o: Output): nat {
    o.i
  }

  /** Every frame but those the model answered with None is handed on once, in order. */
  lemma {:induction false} OneOutputPerFrame(calls: seq<Call>, n: nat, i: nat)
    requires n <= |calls|
    ensures |Outputs(calls, n)| <= n
    ensures forall k :: 0 <= k < |Outputs(calls, n)| ==> FrameOf(Outputs(calls, n)[k]) < n
    ensures forall j, k :: 0 <= j < k < |Outputs(calls, n)| ==>
              FrameOf(Outputs(calls, n)[j]) < FrameOf(Outputs(calls, n)[k])
    ensures (exists k :: 0 <= k < |Outputs(calls, n)| && FrameOf(Outputs(calls, n)[k]) == i) <==>
        i < n && !calls[i].ReturnsNone?
  {
    if n > 0 {
      OneOutputPerFrame(calls, n - 1, i);
      var before, all := Outputs(calls, n - 1), Outputs(calls, n);
      if !calls[n - 1].ReturnsNone? {
        assert FrameOf(all[|before|]) == n - 1;
        if k :| 0 <= k < |before| && FrameOf(before[k]) == i {
          assert FrameOf(all[k]) == i;
        }
      } else {
        assert all == before;
      }
    }
  }

  /** What is handed on is the model's frame exactly if the call returned one whose result was not rejected. */
  lemma {:induction false} ProcessedIffReturned(calls: seq<Call>, n: nat)
    requires n <= |calls|
    ensures forall k :: 0 <= k < |Outputs(calls, n)| ==>
              var o := Outputs(calls, n)[k]; o.i < n && (o.Processed? <==> calls[o.i].ReturnsFrame?)
  {
    if n > 0 {
      ProcessedIffReturned(calls, n - 1);
    }
  }
}
