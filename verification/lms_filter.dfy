/** The least-mean-squares adaptive transversal filter that all three filter
    scripts run. A coefficient vector of length `order` starts at zero; for
    each sample index `n` from `order` up to (not including) `stop`, the
    window `reference[n-order..n]` is dotted with the coefficients, the error
    `audio[n] - prediction` is written to the output at `n`, and every
    coefficient moves by `lRate * error * window[k]`. Output samples outside
    the processed range stay zero. The scripts differ only in `stop`. */
module LmsFilter {
  import opened Audio

  /** The batch copies of the filter stop this many samples before the end
      of the recording. */
  const GuardBand: int := 100

  /** `reference[n-order:n]`, the filter's input vector at sample `n`. */
  function Window(reference: seq<real>, n: int, order: nat): seq<real>
    requires order <= n <= |reference|
  {
    reference[n - order..n]
  }

  /** `coef += lRate * error * window`, element by element. */
  function Adapted(coef: seq<real>, window: seq<real>, lRate: real, error: real): seq<real>
    requires |window| == |coef|
  {
    seq(|coef|, k requires 0 <= k < |coef| => coef[k] + lRate * error * window[k])
  }

  /** The coefficient vector once every sample before `n` (from `order` on)
      has been processed. */
  function Coefficients(audio: seq<real>, reference: seq<real>, lRate: real, order: nat, n: int): (c: seq<real>)
    requires |reference| == |audio| && (n <= order || n <= |audio|)
    ensures |c| == order
    decreases n, 0
  {
    if n <= order then Zeros(order)
    else Adapted(Coefficients(audio, reference, lRate, order, n - 1), Window(reference, n - 1, order),
                 lRate, ErrorAt(audio, reference, lRate, order, n - 1))
  }

  /** The error at sample `n`: the sample minus the filter's prediction from
      the current coefficients and window. */
  function ErrorAt(audio: seq<real>, reference: seq<real>, lRate: real, order: nat, n: int): real
    requires |reference| == |audio| && order <= n < |audio|
    decreases n, 1
  {
    audio[n] - Dot(Coefficients(audio, reference, lRate, order, n), Window(reference, n, order))
  }

  /** One step of the recurrence, unfolded. */
  lemma CoefficientsStep(audio: seq<real>, reference: seq<real>, lRate: real, order: nat, n: int)
    requires |reference| == |audio| && order <= n < |audio|
    ensures Coefficients(audio, reference, lRate, order, n + 1) ==
      Adapted(Coefficients(audio, reference, lRate, order, n), Window(reference, n, order),
              lRate, ErrorAt(audio, reference, lRate, order, n))
  {
  }

  /** An update with a zero learning rate or a silent window changes nothing. */
  lemma AdaptedUnchanged(coef: seq<real>, window: seq<real>, lRate: real, error: real)
    requires |window| == |coef|
    requires lRate == 0.0 || forall k :: 0 <= k < |window| ==> window[k] == 0.0
    ensures Adapted(coef, window, lRate, error) == coef
  {
  }

  /** The filtered buffer: the error at every processed index, zero elsewhere. */
  function Filtered(audio: seq<real>, reference: seq<real>, lRate: real, order: nat, stop: int): seq<real>
    requires |reference| == |audio| && stop <= |audio|
  {
    seq(|audio|, n requires 0 <= n < |audio| =>
      if order <= n < stop then ErrorAt(audio, reference, lRate, order, n) else 0.0)
  }

  // ---------------------------------------------------------------------
  // Properties of the recurrence.

  /** The output has the input's length; a sample is zero unless its index is
      in `[order, stop)`; when that range is empty the whole output is zero
      and the coefficients never leave zero. */
  lemma ProcessedRange(audio: seq<real>, reference: seq<real>, lRate: real, order: nat, stop: int)
    requires |reference| == |audio| && stop <= |audio|
    ensures |Filtered(audio, reference, lRate, order, stop)| == |audio|
    ensures forall n :: 0 <= n < |audio| && (n < order || stop <= n) ==>
      Filtered(audio, reference, lRate, order, stop)[n] == 0.0
    ensures stop <= order ==> Filtered(audio, reference, lRate, order, stop) == Zeros(|audio|)
    ensures stop <= order ==> Coefficients(audio, reference, lRate, order, order) == Zeros(order)
  {
  }

  /** At every processed index the output is the error of that step,
      `audio[n] - dot(coef, reference[n-order..n])`, and that same value is
      the error in the coefficient update that follows. */
  lemma OutputDrivesUpdate(audio: seq<real>, reference: seq<real>, lRate: real, order: nat, stop: int, n: int)
    requires |reference| == |audio| && stop <= |audio| && order <= n < stop
    ensures Filtered(audio, reference, lRate, order, stop)[n] ==
      audio[n] - Dot(Coefficients(audio, reference, lRate, order, n), reference[n - order..n])
    ensures Coefficients(audio, reference, lRate, order, n + 1) ==
      Adapted(Coefficients(audio, reference, lRate, order, n), reference[n - order..n], lRate,
              Filtered(audio, reference, lRate, order, stop)[n])
  {
    var e := ErrorAt(audio, reference, lRate, order, n);
    assert Filtered(audio, reference, lRate, order, stop)[n] == e;
    assert Window(reference, n, order) == reference[n - order..n];
    assert e == audio[n] - Dot(Coefficients(audio, reference, lRate, order, n), Window(reference, n, order));
    CoefficientsStep(audio, reference, lRate, order, n);
  }

  /** The coefficients start at zero, so the first processed sample passes
      through unchanged. */
  lemma FirstSampleUnchanged(audio: seq<real>, reference: seq<real>, lRate: real, order: nat, stop: int)
    requires |reference| == |audio| && stop <= |audio| && order < stop
    ensures Filtered(audio, reference, lRate, order, stop)[order] == audio[order]
  {
    var w := Window(reference, order, order);
    assert Coefficients(audio, reference, lRate, order, order) == Zeros(|w|);
    DotWithZeros(w);
    assert ErrorAt(audio, reference, lRate, order, order) == audio[order] - Dot(Zeros(|w|), w);
    assert Filtered(audio, reference, lRate, order, stop)[order] == ErrorAt(audio, reference, lRate, order, order);
  }

  /** With a zero learning rate, or a reference that is silent, the filter
      never adapts: the coefficients stay zero. */
  lemma {:induction false} CoefficientsStayZero(audio: seq<real>, reference: seq<real>, lRate: real, order: nat, n: int)
    requires |reference| == |audio| && n <= |audio|
    requires lRate == 0.0 || forall i :: 0 <= i < |reference| ==> reference[i] == 0.0
    ensures Coefficients(audio, reference, lRate, order, n) == Zeros(order)
    decreases n
  {
    if n > order {
      var c := Coefficients(audio, reference, lRate, order, n - 1);
      var w := Window(reference, n - 1, order);
      assert c == Zeros(order) by {
        CoefficientsStayZero(audio, reference, lRate, order, n - 1);
      }
      assert lRate == 0.0 || forall k :: 0 <= k < |w| ==> w[k] == 0.0 by {
        if lRate != 0.0 {
          assert forall k :: 0 <= k < order ==> w[k] == reference[n - 1 - order + k];
        }
      }
      AdaptedUnchanged(c, w, lRate, ErrorAt(audio, reference, lRate, order, n - 1));
      CoefficientsStep(audio, reference, lRate, order, n - 1);
    }
  }

  /** ... and then every processed sample is copied unchanged. */
  lemma NoAdaptationPassesThrough(audio: seq<real>, reference: seq<real>, lRate: real, order: nat, stop: int)
    requires |reference| == |audio| && stop <= |audio|
    requires lRate == 0.0 || forall i :: 0 <= i < |reference| ==> reference[i] == 0.0
    ensures forall n :: order <= n < stop ==> Filtered(audio, reference, lRate, order, stop)[n] == audio[n]
  {
    forall n | order <= n < stop
      ensures Filtered(audio, reference, lRate, order, stop)[n] == audio[n]
    {
      CoefficientsStayZero(audio, reference, lRate, order, n);
      DotWithZeros(Window(reference, n, order));
    }
  }

  /** The coefficients after sample `n-1` depend on nothing at or after `n`. */
  lemma {:induction false} CoefficientsAreCausal(audio: seq<real>, reference: seq<real>, audio': seq<real>, reference': seq<real>,
                                                 lRate: real, order: nat, n: int)
    requires |reference| == |audio| && |reference'| == |audio'| && n <= |audio| && n <= |audio'|
    requires forall i :: 0 <= i < n ==> audio[i] == audio'[i] && reference[i] == reference'[i]
    ensures Coefficients(audio, reference, lRate, order, n) == Coefficients(audio', reference', lRate, order, n)
    decreases n
  {
    if n > order {
      var c := Coefficients(audio, reference, lRate, order, n - 1);
      var w := Window(reference, n - 1, order);
      assert Coefficients(audio', reference', lRate, order, n - 1) == c by {
        CoefficientsAreCausal(audio, reference, audio', reference', lRate, order, n - 1);
      }
      assert Window(reference', n - 1, order) == w by {
        var w' := Window(reference', n - 1, order);
        assert forall k :: 0 <= k < order ==> w'[k] == reference'[n - 1 - order + k] == reference[n - 1 - order + k] == w[k];
      }
      assert ErrorAt(audio', reference', lRate, order, n - 1) == ErrorAt(audio, reference, lRate, order, n - 1);
      CoefficientsStep(audio, reference, lRate, order, n - 1);
      CoefficientsStep(audio', reference', lRate, order, n - 1);
    }
  }

  /** The filter is causal: the output at `n` is determined by the samples up
      to and including `n` and the reference strictly before `n`, whatever
      the rest of either buffer holds and wherever the loop stops. */
  lemma Causal(audio: seq<real>, reference: seq<real>, audio': seq<real>, reference': seq<real>,
               lRate: real, order: nat, stop: int, stop': int, n: int)
    requires |reference| == |audio| && |reference'| == |audio'| && stop <= |audio| && stop' <= |audio'|
    requires 0 <= n < stop && n < stop'
    requires audio[..n + 1] == audio'[..n + 1] && reference[..n] == reference'[..n]
    ensures Filtered(audio, reference, lRate, order, stop)[n] == Filtered(audio', reference', lRate, order, stop')[n]
  {
    if order <= n {
      assert forall i :: 0 <= i < n ==> audio[i] == audio'[i] && reference[i] == reference'[i] by {
        forall i | 0 <= i < n
          ensures audio[i] == audio'[i] && reference[i] == reference'[i]
        {
          assert audio[..n + 1][i] == audio'[..n + 1][i];
          assert reference[..n][i] == reference'[..n][i];
        }
      }
      CoefficientsAreCausal(audio, reference, audio', reference', lRate, order, n);
      assert Window(reference', n, order) == Window(reference, n, order) by {
        assert reference[n - order..n] == reference[..n][n - order..];
        assert reference'[n - order..n] == reference'[..n][n - order..];
      }
      assert audio[n] == audio'[n] by {
        assert audio[..n + 1][n] == audio'[..n + 1][n];
      }
      assert ErrorAt(audio', reference', lRate, order, n) == ErrorAt(audio, reference, lRate, order, n);
      assert Filtered(audio, reference, lRate, order, stop)[n] == ErrorAt(audio, reference, lRate, order, n);
      assert Filtered(audio', reference', lRate, order, stop')[n] == ErrorAt(audio', reference', lRate, order, n);
    }
  }

  /** Stopping earlier only zeroes the tail: below the earlier stop the two
      outputs agree. This relates the scripts that stop 100 samples early to
      the one that runs to the end. */
  lemma EarlierStopTruncates(audio: seq<real>, reference: seq<real>, lRate: real, order: nat, stop: int, stop': int)
    requires |reference| == |audio| && stop' <= stop <= |audio|
    ensures forall n :: 0 <= n < |audio| ==>
      Filtered(audio, reference, lRate, order, stop')[n] ==
        if n < stop' then Filtered(audio, reference, lRate, order, stop)[n] else 0.0
  {
  }

  /** Moving the stop one sample further sets exactly that sample, to its
      error, and leaves every other output sample as it was. */
  lemma FilteredExtends(audio: seq<real>, reference: seq<real>, lRate: real, order: nat, n: int)
    requires |reference| == |audio| && order <= n < |audio|
    ensures Filtered(audio, reference, lRate, order, n + 1) ==
      Filtered(audio, reference, lRate, order, n)[n := ErrorAt(audio, reference, lRate, order, n)]
  {
  }

  /** The output buffer as the loop leaves it after processing every sample
      before `n`: the previous buffer with sample `n - 1` set to its error. */
  function Output(audio: seq<real>, reference: seq<real>, lRate: real, order: nat, n: int): (o: seq<real>)
    requires |reference| == |audio| && (n <= order || n <= |audio|)
    ensures |o| == |audio|
    decreases n
  {
    if n <= order then Zeros(|audio|)
    else Output(audio, reference, lRate, order, n - 1)[n - 1 := ErrorAt(audio, reference, lRate, order, n - 1)]
  }

  /** Building the output one sample at a time yields the filtered buffer. */
  lemma {:induction false} OutputIsFiltered(audio: seq<real>, reference: seq<real>, lRate: real, order: nat, n: int)
    requires |reference| == |audio| && n <= |audio|
    ensures Output(audio, reference, lRate, order, n) == Filtered(audio, reference, lRate, order, n)
    decreases n
  {
    if n <= order {
      ProcessedRange(audio, reference, lRate, order, n);
    } else {
      var prev := Output(audio, reference, lRate, order, n - 1);
      assert prev == Filtered(audio, reference, lRate, order, n - 1) by {
        OutputIsFiltered(audio, reference, lRate, order, n - 1);
      }
      assert Output(audio, reference, lRate, order, n) == prev[n - 1 := ErrorAt(audio, reference, lRate, order, n - 1)];
      FilteredExtends(audio, reference, lRate, order, n - 1);
    }
  }

  // ---------------------------------------------------------------------
  // The loop as the scripts run it, over arrays.

  /** `np.dot(coef, reference[lo:lo+len(coef)])` */
  method DotProduct(coef: array<real>, reference: seq<real>, lo: nat) returns (s: real)
    requires lo + coef.Length <= |reference|
    ensures s == Dot(coef[..], reference[lo..lo + coef.Length])
  {
    s := 0.0;
    var k := 0;
    while k < coef.Length
      invariant 0 <= k <= coef.Length
      invariant s == Dot(coef[..k], reference[lo..lo + k])
    {
      assert coef[..k + 1][..k] == coef[..k];
      assert reference[lo..lo + k + 1][..k] == reference[lo..lo + k];
      s := s + coef[k] * reference[lo + k];
      k := k + 1;
    }
    assert coef[..k] == coef[..];
  }

  /** `coef += lRate * error * reference[lo:lo+len(coef)]`, in place. */
  method Adapt(coef: array<real>, reference: seq<real>, lo: nat, lRate: real, error: real)
    requires lo + coef.Length <= |reference|
    modifies coef
    ensures coef[..] == Adapted(old(coef[..]), reference[lo..lo + coef.Length], lRate, error)
  {
    ghost var before := coef[..];
    ghost var window := reference[lo..lo + coef.Length];
    forall k | 0 <= k < coef.Length {
      coef[k] := coef[k] + lRate * error * reference[lo + k];
    }
    ghost var target := Adapted(before, window, lRate, error);
    assert forall k :: 0 <= k < coef.Length ==> coef[..][k] == before[k] + lRate * error * window[k] == target[k];
    assert coef[..] == target;
  }

  /** One pass of the loop body at sample `n`: predict from the window,
      take the error, adapt the coefficients in place and store the error
      as the output sample. */
  method FilterStep(coef: array<real>, out: array<real>, audio: seq<real>, reference: seq<real>,
                    lRate: real, order: nat, n: int)
    requires coef != out && coef.Length == order && out.Length == |audio|
    requires |reference| == |audio| && order <= n < |audio|
    requires coef[..] == Coefficients(audio, reference, lRate, order, n)
    requires out[..] == Output(audio, reference, lRate, order, n)
    modifies coef, out
    ensures coef[..] == Coefficients(audio, reference, lRate, order, n + 1)
    ensures out[..] == Output(audio, reference, lRate, order, n + 1)
  {
    ghost var before := coef[..];
    ghost var window := Window(reference, n, order);
    ghost var e := ErrorAt(audio, reference, lRate, order, n);
    var filtOutput := DotProduct(coef, reference, n - order);
    assert reference[n - order..n - order + coef.Length] == window;
    var error := audio[n] - filtOutput;
    assert error == e;
    Adapt(coef, reference, n - order, lRate, error);
    assert coef[..] == Adapted(before, window, lRate, e);
    CoefficientsStep(audio, reference, lRate, order, n);
    out[n] := audio[n] - filtOutput;
    assert out[..] == Output(audio, reference, lRate, order, n)[n := e];
  }

  /** The filter loop: zero-initialised coefficients and output, then one
      step per index in `[order, stop)`. */
  method Filter(audio: seq<real>, reference: seq<real>, lRate: real, order: nat, stop: int) returns (filtered: seq<real>)
    requires |reference| == |audio| && stop <= |audio|
    ensures filtered == Filtered(audio, reference, lRate, order, stop)
  {
    var coef := new real[order](_ => 0.0);
    var out := new real[|audio|](_ => 0.0);
    assert coef[..] == Zeros(order);
    assert out[..] == Zeros(|audio|);
    var n := order;
    while n < stop
      invariant order <= n <= if order < stop then stop else order
      invariant coef.Length == order && out.Length == |audio|
      invariant coef[..] == Coefficients(audio, reference, lRate, order, n)
      invariant out[..] == Output(audio, reference, lRate, order, n)
    {
      FilterStep(coef, out, audio, reference, lRate, order, n);
      n := n + 1;
    }
    filtered := out[..];
    if order < stop {
      OutputIsFiltered(audio, reference, lRate, order, stop);
    } else {
      ProcessedRange(audio, reference, lRate, order, stop);
    }
  }
}
