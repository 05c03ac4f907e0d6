/** The score calculator: limit tiers from han and fu, the base-points
    formula and the ron and self-draw payments. */
module ScoreCalculator {
  import opened Types
  import opened FuCalculator

  /** One row of the limit table: ron to a non-dealer and to the dealer, a
      non-dealer's self-draw (paid by each non-dealer, and by the dealer) and
      the dealer's self-draw (paid by each opponent). */
  datatype LimitScores = LimitScores(koRon: nat, oyaRon: nat, koTsumoKo: nat, koTsumoOya: nat, oyaTsumo: nat)

  function LimitScoresOf(tier: LimitTier): LimitScores
  {
    match tier
    case Mangan => LimitScores(8000, 12000, 2000, 4000, 4000)
    case Haneman => LimitScores(12000, 18000, 3000, 6000, 6000)
    case Baiman => LimitScores(16000, 24000, 4000, 8000, 8000)
    case Sanbaiman => LimitScores(24000, 36000, 6000, 12000, 12000)
    case Yakuman => LimitScores(32000, 48000, 8000, 16000, 16000)
  }

  /** The tiers in ascending order. */
  function TierRank(tier: LimitTier): nat
  {
    match tier
    case Mangan => 0
    case Haneman => 1
    case Baiman => 2
    case Sanbaiman => 3
    case Yakuman => 4
  }

  /** Every row splits the self-draw so that it adds up to the ron payment,
      the dealer's payments are one and a half times a non-dealer's, and a
      higher tier pays more in every column. */
  lemma LimitTableShape(t: LimitTier, u: LimitTier)
    ensures var s := LimitScoresOf(t);
            && 2 * s.koTsumoKo + s.koTsumoOya == s.koRon
            && 3 * s.oyaTsumo == s.oyaRon
            && 2 * s.oyaRon == 3 * s.koRon
            && s.koTsumoOya == 2 * s.koTsumoKo
    ensures TierRank(t) < TierRank(u) ==>
              var s := LimitScoresOf(t);
              var v := LimitScoresOf(u);
              s.koRon < v.koRon && s.oyaRon < v.oyaRon && s.koTsumoKo < v.koTsumoKo
              && s.koTsumoOya < v.koTsumoOya && s.oyaTsumo < v.oyaTsumo
  {
  }

  /** The least multiple of 100 not below `v`. */
  function RoundUp100(v: nat): (r: nat)
    ensures r % 100 == 0
    ensures v <= r < v + 100
  {
    ((v + 99) / 100) * 100
  }

  lemma RoundUp100Least(v: nat, m: nat)
    requires m % 100 == 0 && v <= m
    ensures RoundUp100(v) <= m
  {
  }

  lemma RoundUp100Monotone(a: nat, b: nat)
    requires a <= b
    ensures RoundUp100(a) <= RoundUp100(b)
  {
    RoundUp100Least(a, RoundUp100(b));
  }

  /** The limit tier of a hand, if any. */
  function CheckLimit(fu: nat, han: nat): (r: Option<LimitTier>)
    ensures r == Some(Yakuman) <==> han >= 13
    ensures r == Some(Sanbaiman) <==> 11 <= han <= 12
    ensures r == Some(Baiman) <==> 8 <= han <= 10
    ensures r == Some(Haneman) <==> 6 <= han <= 7
    ensures r == Some(Mangan) <==> han == 5 || (han == 4 && fu >= 40) || (han == 3 && fu >= 70)
    ensures r.None? <==> han <= 2 || (han == 3 && fu < 70) || (han == 4 && fu < 40)
  {
    if han >= 13 then Some(Yakuman)
    else if han >= 11 then Some(Sanbaiman)
    else if han >= 8 then Some(Baiman)
    else if han >= 6 then Some(Haneman)
    else if han >= 5 then Some(Mangan)
    else if han == 4 && fu >= 40 then Some(Mangan)
    else if han == 3 && fu >= 70 then Some(Mangan)
    else None
  }

  /** More han never lowers the tier, and once a hand is a limit hand it
      stays one. */
  lemma CheckLimitMonotone(fu: nat, h1: nat, h2: nat)
    requires h1 <= h2
    ensures CheckLimit(fu, h1).Some? ==>
              CheckLimit(fu, h2).Some? && TierRank(CheckLimit(fu, h1).value) <= TierRank(CheckLimit(fu, h2).value)
  {
  }

  function Pow2(n: nat): (r: nat)
    ensures r >= 1
  {
    if n == 0 then 1 else 2 * Pow2(n - 1)
  }

  lemma {:induction false} Pow2Monotone(a: nat, b: nat)
    requires a <= b
    ensures Pow2(a) <= Pow2(b)
    decreases b
  {
    if a < b {
      Pow2Monotone(a, b - 1);
    }
  }

  /** Base points: fu times two to the power han + 2. */
  function BasePoints(fu: nat, han: nat): nat
  {
    fu * Pow2(han + 2)
  }

  lemma BasePointsMonotone(fu: nat, h1: nat, h2: nat)
    requires h1 <= h2
    ensures BasePoints(fu, h1) <= BasePoints(fu, h2)
  {
    Pow2Monotone(h1 + 2, h2 + 2);
    MulMonotone(fu, Pow2(h1 + 2), Pow2(h2 + 2));
  }

  lemma MulMonotone(a: nat, b: nat, c: nat)
    requires b <= c
    ensures a * b <= a * c
  {
  }

  /** The score of a hand with the given fu and han. */
  function ScoreFromFu(fu: nat, han: nat, winType: WinType, playerType: PlayerType): (r: ScoreResult)
    ensures r.fu == fu && r.han == han && r.basePoints == BasePoints(fu, han)
    ensures r.limitName == CheckLimit(fu, han)
    ensures winType == Ron ==> r.ronPoints.Some? && r.tsumoPointsKo.None? && r.tsumoPointsOya.None?
    ensures winType == Tsumo ==> r.ronPoints.None? && r.tsumoPointsKo.Some?
    ensures winType == Tsumo ==> (r.tsumoPointsOya.Some? <==> playerType.Ko?)
    ensures r.limitName.Some? ==>
              var s := LimitScoresOf(r.limitName.value);
              && (winType == Ron ==> r.ronPoints.value == (if playerType == Oya then s.oyaRon else s.koRon))
              && (winType == Tsumo && playerType == Oya ==> r.tsumoPointsKo.value == s.oyaTsumo)
              && (winType == Tsumo && playerType == Ko ==>
                    r.tsumoPointsKo.value == s.koTsumoKo && r.tsumoPointsOya.value == s.koTsumoOya)
    ensures r.limitName.None? ==>
              var b := r.basePoints;
              && (winType == Ron ==>
                    r.ronPoints.value == RoundUp100((if playerType == Oya then 6 else 4) * b))
              && (winType == Tsumo && playerType == Oya ==> r.tsumoPointsKo.value == RoundUp100(2 * b))
              && (winType == Tsumo && playerType == Ko ==>
                    r.tsumoPointsKo.value == RoundUp100(b) && r.tsumoPointsOya.value == RoundUp100(2 * b))
  {
    var base := BasePoints(fu, han);
    match CheckLimit(fu, han)
    case Some(tier) =>
      var s := LimitScoresOf(tier);
      if winType == Ron then
        ScoreResult(fu, han, base, Some(if playerType == Oya then s.oyaRon else s.koRon), None, None, Some(tier))
      else if playerType == Oya then
        ScoreResult(fu, han, base, None, Some(s.oyaTsumo), None, Some(tier))
      else
        ScoreResult(fu, han, base, None, Some(s.koTsumoKo), Some(s.koTsumoOya), Some(tier))
    case None =>
      if winType == Ron then
        ScoreResult(fu, han, base, Some(RoundUp100((if playerType == Oya then 6 else 4) * base)), None, None, None)
      else if playerType == Oya then
        ScoreResult(fu, han, base, None, Some(RoundUp100(2 * base)), None, None)
      else
        ScoreResult(fu, han, base, None, Some(RoundUp100(base)), Some(RoundUp100(2 * base)), None)
  }

  /** The score of a problem: fu from the fu calculator, han as the problem
      states it. */
  function CalculateScore(p: Problem): (r: ScoreResult)
    ensures r.fu == CalculateFu(p).total && r.han == p.han
    ensures IsChiitoitsuProblem(p) ==> r.fu == 25
    ensures !IsChiitoitsuProblem(p) ==> r.fu % 10 == 0 && r.fu >= 20
    ensures r.ronPoints.Some? <==> p.winType == Ron
    ensures r.tsumoPointsOya.Some? <==> p.winType == Tsumo && p.playerType.Ko?
    ensures r.limitName == CheckLimit(r.fu, p.han)
  {
    FuTotalShape(p);
    ScoreFromFu(CalculateFu(p).total, p.han, p.winType, p.playerType)
  }

  /** What the winner collects on a self-draw: three equal payments for the
      dealer, two non-dealer payments and the dealer's for a non-dealer; a
      missing field counts as zero. */
  function GetTsumoTotal(r: ScoreResult, playerType: PlayerType): (total: nat)
    ensures playerType == Oya ==> total == 3 * (if r.tsumoPointsKo.Some? then r.tsumoPointsKo.value else 0)
    ensures playerType == Ko ==>
              total == 2 * (if r.tsumoPointsKo.Some? then r.tsumoPointsKo.value else 0)
                       + (if r.tsumoPointsOya.Some? then r.tsumoPointsOya.value else 0)
  {
    var ko := match r.tsumoPointsKo case Some(v) => v case None => 0;
    var oya := match r.tsumoPointsOya case Some(v) => v case None => 0;
    if playerType == Oya then ko * 3 else ko * 2 + oya
  }

  /** A limit hand's self-draw adds up to exactly its ron payment; any other
      hand's self-draw and ron payment both lie within rounding of the same
      multiple of the base points, so they differ by less than 300. */
  lemma TsumoTotalMatchesRon(fu: nat, han: nat, playerType: PlayerType)
    ensures var ron := ScoreFromFu(fu, han, Ron, playerType).ronPoints.value;
            var total := GetTsumoTotal(ScoreFromFu(fu, han, Tsumo, playerType), playerType);
            && (CheckLimit(fu, han).Some? ==> total == ron)
            && (CheckLimit(fu, han).None? ==> ron - 300 < total < ron + 300)
  {
    if CheckLimit(fu, han).Some? {
      LimitTableShape(CheckLimit(fu, han).value, Mangan);
    }
  }

  /** Without a limit, and with at most 120 fu of a shape the fu calculator
      produces, the base points stay below 2000, so the ron payment stays
      below the mangan row. */
  lemma BelowLimitBase(fu: nat, han: nat)
    requires fu <= 120 && (fu % 10 == 0 || fu == 25) && CheckLimit(fu, han).None?
    ensures BasePoints(fu, han) < 2000
    ensures ScoreFromFu(fu, han, Ron, Ko).ronPoints.value < LimitScoresOf(Mangan).koRon
    ensures ScoreFromFu(fu, han, Ron, Oya).ronPoints.value < LimitScoresOf(Mangan).oyaRon
  {
    assert Pow2(2) == 4 && Pow2(3) == 8 && Pow2(4) == 16 && Pow2(5) == 32 && Pow2(6) == 64;
    if han == 4 {
      assert fu <= 30;
      MulMonotone(64, fu, 30);
    } else if han == 3 {
      assert fu <= 60;
      MulMonotone(32, fu, 60);
    } else if han == 2 {
      MulMonotone(16, fu, 120);
    } else if han == 1 {
      MulMonotone(8, fu, 120);
    } else {
      MulMonotone(4, fu, 120);
    }
    RoundUp100Least(4 * BasePoints(fu, han), 7700);
    RoundUp100Least(6 * BasePoints(fu, han), 11600);
  }

  /** For fu totals up to 120 more han never lowers the ron payment. Above
      that the formula without a cap can pay more than the mangan row: 2 han
      at 130 fu pays a non-dealer 8400 on a ron, 3 han at the same fu 8000. */
  lemma RonMonotoneInHan(fu: nat, h1: nat, h2: nat, playerType: PlayerType)
    requires fu <= 120 && (fu % 10 == 0 || fu == 25) && h1 <= h2
    ensures ScoreFromFu(fu, h1, Ron, playerType).ronPoints.value
            <= ScoreFromFu(fu, h2, Ron, playerType).ronPoints.value
  {
    CheckLimitMonotone(fu, h1, h2);
    var l1 := CheckLimit(fu, h1);
    var l2 := CheckLimit(fu, h2);
    if l1.None? && l2.None? {
      BasePointsMonotone(fu, h1, h2);
      var k := if playerType == Oya then 6 else 4;
      MulMonotone(k, BasePoints(fu, h1), BasePoints(fu, h2));
      RoundUp100Monotone(k * BasePoints(fu, h1), k * BasePoints(fu, h2));
    } else if l1.None? {
      BelowLimitBase(fu, h1);
      LimitTableShape(Mangan, l2.value);
    } else if l1.value != l2.value {
      LimitTableShape(l1.value, l2.value);
    }
  }

  /** The uncapped formula past 120 fu. */
  lemma UncappedAboveMangan()
    ensures ScoreFromFu(130, 2, Ron, Ko).ronPoints == Some(8400)
    ensures ScoreFromFu(130, 3, Ron, Ko).ronPoints == Some(8000)
  {
    assert Pow2(4) == 16;
  }

  /** The worked examples: 30 fu 3 han non-dealer ron is 3900, its
      self-draw 1000/2000; 20 fu 2 han non-dealer self-draw is 400/700;
      4 han 40 fu non-dealer ron is a mangan 8000; 13 han dealer ron is a
      yakuman 48000. */
  lemma WorkedExamples()
    ensures ScoreFromFu(30, 3, Ron, Ko).ronPoints == Some(3900)
    ensures var r := ScoreFromFu(30, 3, Tsumo, Ko);
            r.tsumoPointsKo == Some(1000) && r.tsumoPointsOya == Some(2000)
    ensures var r := ScoreFromFu(20, 2, Tsumo, Ko);
            r.tsumoPointsKo == Some(400) && r.tsumoPointsOya == Some(700)
    ensures var r := ScoreFromFu(40, 4, Ron, Ko);
            r.ronPoints == Some(8000) && r.limitName == Some(Mangan)
    ensures var r := ScoreFromFu(30, 13, Ron, Oya);
            r.ronPoints == Some(48000) && r.limitName == Some(Yakuman)
  {
    assert Pow2(5) == 32;
    assert Pow2(4) == 16;
  }
}
