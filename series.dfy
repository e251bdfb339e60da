/**
 * The signal detector shared by the backtest and the live `ma_cross`
 * strategy: dropping missing closes, trailing rolling means and the
 * per-point "fast average strictly above slow average" signal.
 */
module Series {
  import opened Wrappers

  /** Sum of the values, folded left to right. */
  function Sum(s: seq<real>): real
  {
    if s == [] then 0.0 else Sum(s[..|s| - 1]) + s[|s| - 1]
  }

  /** Every value between lo and hi puts the sum between |s|*lo and |s|*hi. */
  lemma {:induction false} SumBounds(s: seq<real>, lo: real, hi: real)
    requires forall i :: 0 <= i < |s| ==> lo <= s[i] <= hi
    ensures |s| as real * lo <= Sum(s) <= |s| as real * hi
  {
    if s != [] {
      SumBounds(s[..|s| - 1], lo, hi);
    }
  }

  /** The mean of values between lo and hi lies between lo and hi. */
  lemma MeanBounds(s: seq<real>, lo: real, hi: real)
    requires s != []
    requires forall i :: 0 <= i < |s| ==> lo <= s[i] <= hi
    ensures lo <= Sum(s) / |s| as real <= hi
  {
    SumBounds(s, lo, hi);
    var n := |s| as real;
    var m := Sum(s) / n;
    assert m * n == Sum(s);
  }

  /** The closes that are present, in row order (pandas `dropna`). */
  function DropMissing(rows: seq<Option<real>>): (r: seq<real>)
    ensures |r| <= |rows|
  {
    if rows == [] then []
    else DropMissing(rows[..|rows| - 1]) +
         (match rows[|rows| - 1] case Some(v) => [v] case None => [])
  }

  /**
   * The row positions that survive `dropna`: the index labels of the
   * filtered series, strictly increasing, each pointing at its close.
   */
  function KeptRows(rows: seq<Option<real>>): (r: seq<nat>)
    ensures |r| == |DropMissing(rows)|
    ensures forall k :: 0 <= k < |r| ==> r[k] < |rows| && rows[r[k]] == Some(DropMissing(rows)[k])
    ensures forall k, l :: 0 <= k < l < |r| ==> r[k] < r[l]
    ensures forall j :: 0 <= j < |rows| && rows[j].Some? ==> j in r
  {
    if rows == [] then []
    else
      var n := |rows| - 1;
      var init := rows[..n];
      assert forall j :: 0 <= j < n ==> init[j] == rows[j];
      KeptRows(init) + (if rows[n].Some? then [n] else [])
  }

  /** A series without missing closes is kept whole. */
  lemma {:induction false} DropMissingNoGaps(rows: seq<Option<real>>)
    requires forall j :: 0 <= j < |rows| ==> rows[j].Some?
    ensures |DropMissing(rows)| == |rows|
    ensures forall j :: 0 <= j < |rows| ==> DropMissing(rows)[j] == rows[j].value
    ensures forall j :: 0 <= j < |rows| ==> KeptRows(rows)[j] == j
  {
    if rows != [] {
      DropMissingNoGaps(rows[..|rows| - 1]);
    }
  }

  /** Every close the provider returned is a positive price. */
  predicate PositivePrices(rows: seq<Option<real>>)
  {
    forall j :: 0 <= j < |rows| && rows[j].Some? ==> rows[j].value > 0.0
  }

  /** Every close that survives `dropna` is one of those positive prices. */
  lemma DropMissingPositive(rows: seq<Option<real>>)
    requires PositivePrices(rows)
    ensures forall k :: 0 <= k < |DropMissing(rows)| ==> DropMissing(rows)[k] > 0.0
  {
    var kept := KeptRows(rows);
    forall k | 0 <= k < |DropMissing(rows)|
      ensures DropMissing(rows)[k] > 0.0
    {
      assert rows[kept[k]] == Some(DropMissing(rows)[k]);
    }
  }

  /**
   * pandas `closes.rolling(window=w).mean()` at position i: the mean of
   * the w closes ending at and including i, undefined (NaN) while fewer
   * than w closes exist; a window of 0 is never defined.
   */
  function RollingMean(c: seq<real>, w: nat, i: nat): Option<real>
    requires i < |c|
  {
    if w == 0 || i + 1 < w then None else Some(Sum(c[i + 1 - w .. i + 1]) / w as real)
  }

  /** A defined rolling mean lies within the range of its window. */
  lemma RollingMeanBounds(c: seq<real>, w: nat, i: nat, lo: real, hi: real)
    requires w >= 1 && w <= i + 1 <= |c|
    requires forall k :: i + 1 - w <= k <= i ==> lo <= c[k] <= hi
    ensures RollingMean(c, w, i).Some?
    ensures lo <= RollingMean(c, w, i).value <= hi
  {
    var win := c[i + 1 - w .. i + 1];
    assert forall k :: 0 <= k < |win| ==> win[k] == c[i + 1 - w + k];
    MeanBounds(win, lo, hi);
  }

  /**
   * The trading signal at position i: true iff both rolling means are
   * defined and the fast one is strictly greater (a NaN comparison is
   * false in pandas).
   */
  predicate Signal(c: seq<real>, fast: nat, slow: nat, i: nat)
    requires i < |c|
  {
    match (RollingMean(c, fast, i), RollingMean(c, slow, i))
    case (Some(f), Some(s)) => f > s
    case _ => false
  }

  /** With equal windows the two means coincide and the signal never fires. */
  lemma EqualWindowsNeverSignal(c: seq<real>, w: nat, i: nat)
    requires i < |c|
    ensures !Signal(c, w, w, i)
  {
  }

  /** The signal is never true before both windows are filled, nor with a window of 0. */
  lemma SignalNeedsBothWindows(c: seq<real>, fast: nat, slow: nat, i: nat)
    requires i < |c|
    ensures Signal(c, fast, slow, i) ==> 1 <= fast <= i + 1 && 1 <= slow <= i + 1
  {
  }

  /** The first point never signals: only windows of 1 are filled there, and equal windows never signal. */
  lemma FirstPointNeverSignals(c: seq<real>, fast: nat, slow: nat)
    requires |c| > 0
    ensures !Signal(c, fast, slow, 0)
  {
    SignalNeedsBothWindows(c, fast, slow, 0);
    if fast == 1 && slow == 1 {
      EqualWindowsNeverSignal(c, 1, 0);
    }
  }
}
