/** The fu calculator: an itemised breakdown of a hand's fu with the
    seven-pairs, pinfu and open-pinfu-shape special cases, rounded up to a
    multiple of ten. */
module FuCalculator {
  import opened Types
  import opened Tiles

  /** Fu of one meld, decided by its kind, whether it is open and whether its
      first tile is a terminal or honor. */
  function CalculateMentsuFu(m: Meld): (fu: nat)
    ensures m.kind == Shuntsu <==> fu == 0
    ensures m.kind != Shuntsu ==>
              fu == 2 * (if IsYaochuhai(m.tiles[0]) then 2 else 1)
                      * (if m.isOpen then 1 else 2)
                      * (if m.kind == Kantsu then 4 else 1)
  {
    var isYaochu := IsYaochuhai(m.tiles[0]);
    match m.kind
    case Shuntsu => 0
    case Koutsu =>
      if m.isOpen then (if isYaochu then 4 else 2) else (if isYaochu then 8 else 4)
    case Kantsu =>
      if m.isOpen then (if isYaochu then 16 else 8) else (if isYaochu then 32 else 16)
  }

  /** Fu of the pair, read off its first tile. */
  function CalculateJantouFu(jantou: Jantou, seatWind: int, roundWind: int): (fu: nat)
    ensures fu == 4 <==> IsDoubleWind(jantou.first, seatWind, roundWind)
    ensures fu == 2 <==> IsYakuhai(jantou.first, seatWind, roundWind)
                         && !IsDoubleWind(jantou.first, seatWind, roundWind)
    ensures fu == 0 <==> !IsYakuhai(jantou.first, seatWind, roundWind)
  {
    var tile := jantou.first;
    YakuhaiFacts(tile, seatWind, roundWind);
    if IsDoubleWind(tile, seatWind, roundWind) then 4
    else if IsYakuhai(tile, seatWind, roundWind) then 2
    else 0
  }

  /** Fu of the wait: the one-sided waits earn 2. */
  function CalculateWaitFu(waitType: WaitType): (fu: nat)
    ensures fu == 2 <==> waitType in {Kanchan, Penchan, Tanki}
    ensures fu == 0 <==> waitType in {Ryanmen, Shanpon}
  {
    match waitType
    case Kanchan => 2
    case Penchan => 2
    case Tanki => 2
    case Ryanmen => 0
    case Shanpon => 0
  }

  /** The pinfu shape: concealed, all sequences, a pair that is not a value
      honor, and a two-sided wait. */
  predicate IsPinfu(p: Problem)
  {
    && p.isMenzen
    && (forall i :: 0 <= i < |p.mentsu| ==> p.mentsu[i].kind == Shuntsu)
    && !IsYakuhai(p.jantou.first, p.seatWind, p.roundWind)
    && p.waitType == Ryanmen
  }

  /** The per-meld lines of the breakdown, one per meld in input order. */
  function MentsuFuList(ms: seq<Meld>): (r: seq<MentsuFu>)
    ensures |r| == |ms|
    ensures forall i :: 0 <= i < |ms| ==> r[i] == MentsuFu(ms[i], CalculateMentsuFu(ms[i]))
  {
    if ms == [] then [] else [MentsuFu(ms[0], CalculateMentsuFu(ms[0]))] + MentsuFuList(ms[1..])
  }

  function SumFu(items: seq<MentsuFu>): nat
  {
    if items == [] then 0 else items[0].fu + SumFu(items[1..])
  }

  /** The unrounded sum of every line of a breakdown. */
  function RawFu(b: FuBreakdown): nat
  {
    b.base + b.menzenRon + b.tsumo + SumFu(b.mentsuFu) + b.jantouFu + b.waitFu
  }

  /** Rounds up to a multiple of ten: the least multiple of ten not below `x`. */
  function RoundUp10(x: nat): (r: nat)
    ensures r % 10 == 0
    ensures x <= r < x + 10
  {
    ((x + 9) / 10) * 10
  }

  lemma RoundUp10Least(x: nat, m: nat)
    requires m % 10 == 0 && x <= m
    ensures RoundUp10(x) <= m
  {
  }

  /** A pinfu hand's meld, pair and wait lines are all zero. */
  lemma {:induction false} PinfuLinesZero(p: Problem)
    requires IsPinfu(p)
    ensures SumFu(MentsuFuList(p.mentsu)) == 0
    ensures CalculateJantouFu(p.jantou, p.seatWind, p.roundWind) == 0
    ensures CalculateWaitFu(p.waitType) == 0
  {
    AllShuntsuSumZero(p.mentsu);
  }

  lemma {:induction false} AllShuntsuSumZero(ms: seq<Meld>)
    requires forall i :: 0 <= i < |ms| ==> ms[i].kind == Shuntsu
    ensures SumFu(MentsuFuList(ms)) == 0
  {
    if ms != [] {
      assert MentsuFuList(ms)[1..] == MentsuFuList(ms[1..]);
      AllShuntsuSumZero(ms[1..]);
    }
  }

  /** The fu breakdown of a hand. */
  function CalculateFu(p: Problem): (r: FuBreakdown)
    ensures r.base == 20
    ensures IsChiitoitsuProblem(p) ==> r == FuBreakdown(20, 0, 0, [], 0, 0, 25)
    ensures !IsChiitoitsuProblem(p) ==>
              && |r.mentsuFu| == |p.mentsu|
              && (forall i :: 0 <= i < |p.mentsu| ==>
                    r.mentsuFu[i] == MentsuFu(p.mentsu[i], CalculateMentsuFu(p.mentsu[i])))
              && r.jantouFu == CalculateJantouFu(p.jantou, p.seatWind, p.roundWind)
              && r.waitFu == CalculateWaitFu(p.waitType)
    ensures !IsChiitoitsuProblem(p) && IsPinfu(p) ==>
              && r.menzenRon == 0 && r.tsumo == 0
              && r.total == (if p.winType == Tsumo then 20 else 30)
    ensures !IsChiitoitsuProblem(p) && !IsPinfu(p) ==>
              && r.menzenRon == (if p.isMenzen && p.winType == Ron then 10 else 0)
              && r.tsumo == (if p.winType == Tsumo then 2 else 0)
              && r.total % 10 == 0
              && RawFu(r) <= r.total
              && (p.isMenzen || RawFu(r) != 20 ==> r.total < RawFu(r) + 10)
              && (!p.isMenzen && RawFu(r) == 20 ==> r.total == 30)
              && (!p.isMenzen ==> r.total >= 30)
  {
    if IsChiitoitsuProblem(p) then
      FuBreakdown(20, 0, 0, [], 0, 0, 25)
    else
      var items := MentsuFuList(p.mentsu);
      var jantouFu := CalculateJantouFu(p.jantou, p.seatWind, p.roundWind);
      var waitFu := CalculateWaitFu(p.waitType);
      if IsPinfu(p) then
        FuBreakdown(20, 0, 0, items, jantouFu, waitFu, if p.winType == Tsumo then 20 else 30)
      else
        var menzenRon := if p.isMenzen && p.winType == Ron then 10 else 0;
        var tsumo := if p.winType == Tsumo then 2 else 0;
        var raw := 20 + menzenRon + tsumo + SumFu(items) + jantouFu + waitFu;
        var bumped := if !p.isMenzen && raw == 20 then 30 else raw;
        FuBreakdown(20, menzenRon, tsumo, items, jantouFu, waitFu, RoundUp10(bumped))
  }

  /** Under pinfu the lines still sum to the bare 20, so the fixed totals are
      what set 20 fu for tsumo and 30 fu for ron. */
  lemma PinfuRawIsBase(p: Problem)
    requires !IsChiitoitsuProblem(p) && IsPinfu(p)
    ensures RawFu(CalculateFu(p)) == 20
    ensures CalculateFu(p).total == RawFu(CalculateFu(p)) + (if p.winType == Tsumo then 0 else 10)
  {
    PinfuLinesZero(p);
  }

  /** Every hand's fu total is one of the values the score step expects: 25
      for seven pairs, otherwise a multiple of ten of at least 20. */
  lemma FuTotalShape(p: Problem)
    ensures var t := CalculateFu(p).total;
            if IsChiitoitsuProblem(p) then t == 25 else t % 10 == 0 && t >= 20
  {
  }

  /** An open standard hand never scores below 30 fu: a bare 20 is raised
      to 30, and anything above 20 rounds up to at least 30. */
  lemma OpenHandFuAtLeast30(p: Problem)
    requires !IsChiitoitsuProblem(p) && !p.isMenzen
    ensures CalculateFu(p).total >= 30
  {
  }
}
