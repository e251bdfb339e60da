/**
 * The backtest's worked examples, evaluated on the model: daily closes
 * with fast window 2 and slow window 3.
 */
module BacktestScenarios {
  import opened Wrappers
  import opened Series
  import opened Backtest

  lemma SumOfTwo(a: real, b: real)
    ensures Sum([a, b]) == a + b
  {
    assert [a, b][..1] == [a];
    assert [a][..0] == [];
    assert Sum([a]) == Sum([]) + a;
  }

  lemma SumOfThree(a: real, b: real, d: real)
    ensures Sum([a, b, d]) == a + b + d
  {
    assert [a, b, d][..2] == [a, b];
    SumOfTwo(a, b);
  }

  lemma RisingMeans(c: seq<real>)
    requires c == [1.0, 1.0, 1.0, 2.0, 3.0, 4.0]
    ensures RollingMean(c, 2, 2) == Some(1.0) && RollingMean(c, 3, 2) == Some(1.0)
    ensures RollingMean(c, 2, 3) == Some(1.5) && RollingMean(c, 3, 3) == Some(4.0 / 3.0)
    ensures RollingMean(c, 2, 4) == Some(2.5) && RollingMean(c, 3, 4) == Some(2.0)
    ensures RollingMean(c, 2, 5) == Some(3.5) && RollingMean(c, 3, 5) == Some(3.0)
  {
    assert c[1..3] == [1.0, 1.0] && c[2..4] == [1.0, 2.0];
    assert c[3..5] == [2.0, 3.0] && c[4..6] == [3.0, 4.0];
    assert c[0..3] == [1.0, 1.0, 1.0] && c[1..4] == [1.0, 1.0, 2.0];
    assert c[2..5] == [1.0, 2.0, 3.0] && c[3..6] == [2.0, 3.0, 4.0];
    SumOfTwo(1.0, 1.0); SumOfTwo(1.0, 2.0); SumOfTwo(2.0, 3.0); SumOfTwo(3.0, 4.0);
    SumOfThree(1.0, 1.0, 1.0); SumOfThree(1.0, 1.0, 2.0); SumOfThree(1.0, 2.0, 3.0); SumOfThree(2.0, 3.0, 4.0);
  }

  /** Closes 1, 1, 1, 2, 3, 4: the signal turns true at index 3 and stays true. */
  lemma RisingSeriesSignal()
    ensures SignalColumn([1.0, 1.0, 1.0, 2.0, 3.0, 4.0], 2, 3) == [false, false, false, true, true, true]
  {
    var c := [1.0, 1.0, 1.0, 2.0, 3.0, 4.0];
    RisingMeans(c);
    var r := SignalColumn(c, 2, 3);
    assert !r[0] && !r[1] && !r[2] && r[3] && r[4] && r[5];
  }

  /** A series whose only cross-up is at `e` makes exactly the one trade entered there. */
  lemma OneEntryTrades(c: seq<real>, dates: seq<nat>, sig: seq<bool>, mode: ExitMode, hold: int, e: nat)
    requires TradeInputs(c, dates, sig) && ValidHold(mode, hold) && e < |c| && EntryPositions(sig) == [e]
    ensures TradesFor(c, dates, sig, mode, hold) == [TradeAt(c, dates, sig, mode, hold, e)]
  {
    assert [e][..0] == [];
  }

  /** No cross-up below `n` means no entry below `n`. */
  lemma {:induction false} NoCrossUps(sig: seq<bool>, n: nat)
    requires n <= |sig|
    requires forall i :: 0 <= i < n ==> !CrossUp(sig, i)
    ensures CrossUpsBelow(sig, n) == []
  {
    if n > 0 {
      NoCrossUps(sig, n - 1);
    }
  }

  /** A series with a single cross-up below `n` has exactly that entry. */
  lemma {:induction false} SingleCrossUp(sig: seq<bool>, e: nat, n: nat)
    requires e < n <= |sig| && CrossUp(sig, e)
    requires forall i :: 0 <= i < n && i != e ==> !CrossUp(sig, i)
    ensures CrossUpsBelow(sig, n) == [e]
  {
    if n == e + 1 {
      NoCrossUps(sig, e);
    } else {
      SingleCrossUp(sig, e, n - 1);
    }
  }

  /** A cross-down at `j` with none in `[k, j)` is where the cross exit searching from `k` stops. */
  lemma FirstCrossDownAt(sig: seq<bool>, k: nat, j: nat)
    requires k <= j < |sig| && CrossDown(sig, j)
    requires forall i :: k <= i < j ==> !CrossDown(sig, i)
    ensures FirstCrossDownFrom(sig, k) == j
  {
  }

  lemma RisingEntries()
    ensures EntryPositions([false, false, false, true, true, true]) == [3]
  {
    var sig := [false, false, false, true, true, true];
    forall i | 0 <= i < 6 && i != 3
      ensures !CrossUp(sig, i)
    {
      if i < 3 {
        assert !sig[i];
      } else {
        assert sig[i - 1];
      }
    }
    SingleCrossUp(sig, 3, 6);
  }

  /**
   * Fixed exit holding 2 days on closes 1, 1, 1, 2, 3, 4: exactly one
   * trade, entered at index 3 (price 2) and left at index 5 (price 4), a
   * return of 100%.
   */
  lemma FixedExitScenario()
    ensures var c := [1.0, 1.0, 1.0, 2.0, 3.0, 4.0];
      TradesFor(c, [0, 1, 2, 3, 4, 5], SignalColumn(c, 2, 3), Fixed, 2)
        == [Trade(3, 2.0, 5, 4.0, 100.0, 2)]
  {
    RisingSeriesSignal();
    RisingTrades([1.0, 1.0, 1.0, 2.0, 3.0, 4.0], [0, 1, 2, 3, 4, 5], [false, false, false, true, true, true]);
  }

  /** The trade of the rising series, on its signal column. */
  lemma RisingTrades(c: seq<real>, dates: seq<nat>, sig: seq<bool>)
    requires c == [1.0, 1.0, 1.0, 2.0, 3.0, 4.0] && dates == [0, 1, 2, 3, 4, 5]
    requires sig == [false, false, false, true, true, true]
    ensures TradesFor(c, dates, sig, Fixed, 2) == [Trade(3, 2.0, 5, 4.0, 100.0, 2)]
  {
    RisingEntries();
    OneEntryTrades(c, dates, sig, Fixed, 2, 3);
    assert ExitPosition(sig, Fixed, 2, 3) == 5;
    assert ReturnPct(2.0, 4.0) == 100.0;
  }

  lemma PeakMeans(c: seq<real>)
    requires c == [1.0, 1.0, 1.0, 2.0, 3.0, 2.0, 1.0]
    ensures RollingMean(c, 2, 2) == Some(1.0) && RollingMean(c, 3, 2) == Some(1.0)
    ensures RollingMean(c, 2, 3) == Some(1.5) && RollingMean(c, 3, 3) == Some(4.0 / 3.0)
    ensures RollingMean(c, 2, 4) == Some(2.5) && RollingMean(c, 3, 4) == Some(2.0)
    ensures RollingMean(c, 2, 5) == Some(2.5) && RollingMean(c, 3, 5) == Some(7.0 / 3.0)
    ensures RollingMean(c, 2, 6) == Some(1.5) && RollingMean(c, 3, 6) == Some(2.0)
  {
    assert c[1..3] == [1.0, 1.0] && c[2..4] == [1.0, 2.0];
    assert c[3..5] == [2.0, 3.0] && c[4..6] == [3.0, 2.0] && c[5..7] == [2.0, 1.0];
    assert c[0..3] == [1.0, 1.0, 1.0] && c[1..4] == [1.0, 1.0, 2.0];
    assert c[2..5] == [1.0, 2.0, 3.0] && c[3..6] == [2.0, 3.0, 2.0] && c[4..7] == [3.0, 2.0, 1.0];
    SumOfTwo(1.0, 1.0); SumOfTwo(1.0, 2.0); SumOfTwo(2.0, 3.0); SumOfTwo(3.0, 2.0); SumOfTwo(2.0, 1.0);
    SumOfThree(1.0, 1.0, 1.0); SumOfThree(1.0, 1.0, 2.0); SumOfThree(1.0, 2.0, 3.0);
    SumOfThree(2.0, 3.0, 2.0); SumOfThree(3.0, 2.0, 1.0);
  }

  /** Closes 1, 1, 1, 2, 3, 2, 1: the signal is true on indices 3 to 5 only. */
  lemma PeakSeriesSignal()
    ensures SignalColumn([1.0, 1.0, 1.0, 2.0, 3.0, 2.0, 1.0], 2, 3) == [false, false, false, true, true, true, false]
  {
    var c := [1.0, 1.0, 1.0, 2.0, 3.0, 2.0, 1.0];
    PeakMeans(c);
    var r := SignalColumn(c, 2, 3);
    assert !r[0] && !r[1] && !r[2] && r[3] && r[4] && r[5] && !r[6];
  }

  /**
   * Cross exit on closes 1, 1, 1, 2, 3, 2, 1: exactly one trade, entered
   * at index 3 and left at index 6, where the signal crosses down (also
   * the last point).
   */
  lemma CrossExitScenario()
    ensures var c := [1.0, 1.0, 1.0, 2.0, 3.0, 2.0, 1.0];
      TradesFor(c, [0, 1, 2, 3, 4, 5, 6], SignalColumn(c, 2, 3), Cross, 30)
        == [Trade(3, 2.0, 6, 1.0, -50.0, 3)]
  {
    PeakSeriesSignal();
    PeakTrades([1.0, 1.0, 1.0, 2.0, 3.0, 2.0, 1.0], [0, 1, 2, 3, 4, 5, 6],
               [false, false, false, true, true, true, false]);
  }

  /** The trade of the peaked series, on its signal column. */
  lemma PeakTrades(c: seq<real>, dates: seq<nat>, sig: seq<bool>)
    requires c == [1.0, 1.0, 1.0, 2.0, 3.0, 2.0, 1.0] && dates == [0, 1, 2, 3, 4, 5, 6]
    requires sig == [false, false, false, true, true, true, false]
    ensures TradesFor(c, dates, sig, Cross, 30) == [Trade(3, 2.0, 6, 1.0, -50.0, 3)]
  {
    PeakEntries();
    PeakExit();
    OneEntryTrades(c, dates, sig, Cross, 30, 3);
    assert ExitPosition(sig, Cross, 30, 3) == 6;
    assert ReturnPct(2.0, 1.0) == -50.0;
  }

  lemma PeakEntries()
    ensures EntryPositions([false, false, false, true, true, true, false]) == [3]
  {
    var sig := [false, false, false, true, true, true, false];
    forall i | 0 <= i < 7 && i != 3
      ensures !CrossUp(sig, i)
    {
      if i < 3 || i == 6 {
        assert !sig[i];
      } else {
        assert sig[i - 1];
      }
    }
    SingleCrossUp(sig, 3, 7);
  }

  lemma PeakExit()
    ensures FirstCrossDownFrom([false, false, false, true, true, true, false], 4) == 6
  {
    var sig := [false, false, false, true, true, true, false];
    assert CrossDown(sig, 6) by {
      assert sig[5] && !sig[6];
    }
    forall i | 4 <= i < 6
      ensures !CrossDown(sig, i)
    {
      assert sig[i];
    }
    FirstCrossDownAt(sig, 4, 6);
  }

  /** A provider series without gaps is traded as it is, dated by position. */
  lemma NoGapsScenarioInputs()
    ensures DropMissing([Some(1.0), Some(1.0), Some(1.0), Some(2.0), Some(3.0), Some(4.0)])
         == [1.0, 1.0, 1.0, 2.0, 3.0, 4.0]
    ensures KeptRows([Some(1.0), Some(1.0), Some(1.0), Some(2.0), Some(3.0), Some(4.0)])
         == [0, 1, 2, 3, 4, 5]
  {
    var rows := [Some(1.0), Some(1.0), Some(1.0), Some(2.0), Some(3.0), Some(4.0)];
    DropMissingNoGaps(rows);
  }
}
