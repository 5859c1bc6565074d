/** Position sizing: successive clamps, lamport rounding and the dust floor. */
module Sizing {
  import opened Lamports
  import opened Numbers

  datatype SizeMode = Percent | Fixed

  /** The settings the copy-trading core reads.  SOL amounts are in lamports and may be fractional:
      a float setting need not be a whole number of lamports. */
  datatype Settings = Settings(
    sizeMode: SizeMode,
    percentOfLeader: real,
    fixedSize: real,
    maxPosition: real,
    maxExposure: real,
    maxOpenPositions: int,
    dailyLossLimit: real,
    maxConsecutiveFailures: int,
    executionAttempts: int,
    approvalMode: bool,
    live: bool)

  /** A trade below this many lamports is dust and is not taken. */
  const MIN_TRADE: int := 1_000_000

  datatype Note = PercentNote | FixedNote | MaxPositionClamp | NoHeadroom | HeadroomClamp | BelowDust

  predicate IsWhole(x: real) { x == x.Floor as real }

  function Desired(s: Settings, leaderSize: real): real {
    if s.sizeMode.Percent? then leaderSize * s.percentOfLeader / 100.0 else s.fixedSize
  }

  function Headroom(s: Settings, exposure: int): real {
    s.maxExposure - exposure as real
  }

  /** The size before rounding: the desired size cut to both limits, and never negative. */
  function Clamped(s: Settings, leaderSize: real, exposure: int): real {
    MaxReal(MinReal(MinReal(Desired(s, leaderSize), s.maxPosition), Headroom(s, exposure)), 0.0)
  }

  /** The reference size of one copy buy; `CopySize` computes it step by step. */
  function SizeOf(s: Settings, leaderSize: real, exposure: int): int {
    if Headroom(s, exposure) <= 0.0 then 0
    else
      var size := Quantize(Clamped(s, leaderSize, exposure));
      if 0 < size < MIN_TRADE then 0 else size
  }

  /** The clamps in the order the worker applies them, with the audit notes it keeps. */
  method CopySize(s: Settings, leaderSize: real, exposure: int) returns (size: int, notes: seq<Note>)
    ensures size == SizeOf(s, leaderSize, exposure)
    ensures MaxPositionClamp in notes <==> Desired(s, leaderSize) > s.maxPosition
    ensures NoHeadroom in notes <==> Headroom(s, exposure) <= 0.0
    ensures HeadroomClamp in notes
       <==> 0.0 < Headroom(s, exposure) < MinReal(Desired(s, leaderSize), s.maxPosition)
    ensures BelowDust in notes
       <==> Headroom(s, exposure) > 0.0 && 0 < Quantize(Clamped(s, leaderSize, exposure)) < MIN_TRADE
  {
    notes := [];
    var amount: real;
    if s.sizeMode.Percent? {
      amount := Desired(s, leaderSize);
      notes := notes + [PercentNote];
    } else {
      amount := s.fixedSize;
      notes := notes + [FixedNote];
    }
    if amount > s.maxPosition {
      notes := notes + [MaxPositionClamp];
      amount := s.maxPosition;
    }
    var remaining := s.maxExposure - exposure as real;
    if remaining <= 0.0 {
      notes := notes + [NoHeadroom];
      return 0, notes;
    }
    if amount > remaining {
      notes := notes + [HeadroomClamp];
      amount := remaining;
    }
    size := Quantize(MaxReal(amount, 0.0));
    if 0 < size < MIN_TRADE {
      notes := notes + [BelowDust];
      return 0, notes;
    }
  }

  /** What a copy costs, in numbers.  `wanted` is the configured percentage of the leader's trade or the
      fixed size; `cut` is the smallest of it, the position limit and what the exposure leaves.  The size is
      the whole number of lamports nearest to the cut, unless nothing is left or that number is below a
      thousandth of a SOL, which means no copy. */
  lemma SizeMeans(s: Settings, leaderSize: real, exposure: int, wanted: real, cut: real)
    requires if s.sizeMode.Percent? then wanted * 100.0 == leaderSize * s.percentOfLeader else wanted == s.fixedSize
    requires cut <= wanted && cut <= s.maxPosition && cut <= s.maxExposure - exposure as real
    requires cut == wanted || cut == s.maxPosition || cut == s.maxExposure - exposure as real
    ensures var size := SizeOf(s, leaderSize, exposure);
      && (size == 0 || size >= 1_000_000)
      && (size > 0 ==> IsNearest(cut, size))
      && (size == 0 ==> forall n :: IsNearest(cut, n) ==> n < 1_000_000)
  {
    assert Clamped(s, leaderSize, exposure) == if cut > 0.0 then cut else 0.0;
    forall n | IsNearest(cut, n) ensures n == Quantize(cut) { NearestIsUnique(cut, n, Quantize(cut)); }
    QuantizeWhole(0);
    if cut <= 0.0 { QuantizeBelow(cut, 0); }
  }

  /** Every limit survives the rounding: a taken size is above the dust floor, within the rounded
      position limit, and leaves the total within half a lamport of the exposure limit.  Where a
      limit is a whole number of lamports it holds exactly. */
  lemma SizeWithinLimits(s: Settings, leaderSize: real, exposure: int)
    ensures var size := SizeOf(s, leaderSize, exposure);
      && (size == 0 || size >= MIN_TRADE)
      && (size > 0 ==>
            && size <= Quantize(s.maxPosition)
            && (exposure + size) as real <= s.maxExposure + 0.5
            && exposure + size <= (s.maxExposure + 0.5).Floor
            && (IsWhole(s.maxExposure) ==> exposure + size <= s.maxExposure.Floor)
            && (IsWhole(s.maxPosition) ==> size <= s.maxPosition.Floor))
  {
    var size := SizeOf(s, leaderSize, exposure);
    if size > 0 {
      var x := Clamped(s, leaderSize, exposure);
      QuantizeAbove(0.0, 0);
      QuantizeWhole(0);
      assert x <= s.maxPosition && x <= Headroom(s, exposure);
      QuantizeMonotone(x, s.maxPosition);
      assert (exposure + size) as real == exposure as real + size as real;
      if IsWhole(s.maxExposure) {
        QuantizeBelow(x, s.maxExposure.Floor - exposure);
      }
      if IsWhole(s.maxPosition) {
        QuantizeBelow(x, s.maxPosition.Floor);
      }
    }
  }

  /** A bigger leader trade never makes the copy smaller while percentages are non-negative. */
  lemma SizeMonotoneInLeader(s: Settings, small: real, large: real, exposure: int)
    requires small <= large && s.percentOfLeader >= 0.0
    ensures SizeOf(s, small, exposure) <= SizeOf(s, large, exposure)
  {
    assert small * s.percentOfLeader <= large * s.percentOfLeader;
    assert Desired(s, small) <= Desired(s, large);
    QuantizeMonotone(Clamped(s, small, exposure), Clamped(s, large, exposure));
    QuantizeAbove(Clamped(s, small, exposure), 0);
  }

  /** The half lamport is real: with a fractional exposure limit the rounded size can overshoot it. */
  lemma FractionalLimitOvershoots()
    ensures exists s: Settings, leaderSize: real ::
      SizeOf(s, leaderSize, 0) as real > s.maxExposure
  {
    var s := Settings(Fixed, 0.0, 2_000_000.0, 5_000_000.0, 1_000_001.5, 1, 1.0, 1, 1, false, false);
    var x := Clamped(s, 0.0, 0);
    assert x == 1_000_001.5;
    assert x.Floor == 1_000_001;
    assert SizeOf(s, 0.0, 0) == 1_000_002;
  }
}
