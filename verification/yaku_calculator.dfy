/** The yaku calculator: one predicate per yaku over the melds and the pair,
    the open/closed han lookup, the seven-pairs branch and dora counting. */
module YakuCalculator {
  import opened Types
  import opened Tiles
  import opened YakuList
  import opened FuCalculator

  datatype JudgedYaku = JudgedYaku(id: YakuId, han: nat)

  datatype YakuResult = YakuResult(yakuList: seq<JudgedYaku>, totalHan: nat, doraCount: nat)

  // ---------------------------------------------------------------------------
  // Han lookup and the yaku list

  /** The han a yaku is worth on a closed or open hand, read from its table
      entry; `None` when the yaku is concealed-only and the hand is open. */
  function AppliedHan(id: YakuId, isMenzen: bool): Option<nat>
  {
    var def := Definition(id);
    if isMenzen then Some(def.han) else def.hanOpen
  }

  /** The lookup as the source writes it: the first table entry with the id,
      with a missing entry giving nothing. */
  function FoundHan(id: YakuId, isMenzen: bool): Option<nat>
  {
    match FindById(YAKU_LIST, id)
    case None => None
    case Some(def) => if isMenzen then Some(def.han) else def.hanOpen
  }

  lemma AppliedHanIsFoundHan(id: YakuId, isMenzen: bool)
    ensures AppliedHan(id, isMenzen) == FoundHan(id, isMenzen)
  {
    FindByIdIsEntry(id, IndexOf(id));
  }

  /** The table gives every yaku a closed value; exactly the concealed-only
      yaku lose their value on an open hand; every value is at least one han
      and the open value never exceeds the closed one. */
  lemma AppliedHanFacts(id: YakuId)
    ensures AppliedHan(id, true).Some?
    ensures AppliedHan(id, false).None? <==> id in CONCEALED_ONLY
    ensures AppliedHan(id, true).value >= 1
    ensures AppliedHan(id, false).Some? ==>
              1 <= AppliedHan(id, false).value <= AppliedHan(id, true).value
  {
    TableHanFacts();
  }

  /** The entry of a yaku the seven-pairs branch adds, at its closed value. */
  lemma ClosedHanOfSevenPairsYaku()
    ensures AppliedHan(Chiitoitsu, true) == Some(2)
    ensures AppliedHan(Riichi, true) == Some(1)
    ensures AppliedHan(MenzenTsumo, true) == Some(1)
  {
  }

  /** Whether the list holds an entry for the yaku. */
  predicate Has(list: seq<JudgedYaku>, id: YakuId)
  {
    list != [] && (list[0].id == id || Has(list[1..], id))
  }

  /** `Has` is membership of the yaku among the entries' ids. */
  lemma {:induction false} HasIndex(list: seq<JudgedYaku>, id: YakuId)
    ensures Has(list, id) <==> exists k :: 0 <= k < |list| && list[k].id == id
  {
    if list != [] {
      HasIndex(list[1..], id);
      if Has(list[1..], id) {
        var k :| 0 <= k < |list[1..]| && list[1..][k].id == id;
        assert list[k + 1].id == id;
      }
      if exists k :: 0 <= k < |list| && list[k].id == id {
        var k :| 0 <= k < |list| && list[k].id == id;
        if k > 0 {
          assert list[1..][k - 1].id == id;
        }
      }
    }
  }

  /** Every entry carries the han the table gives its yaku on this hand. */
  predicate Priced(list: seq<JudgedYaku>, isMenzen: bool)
  {
    forall k :: 0 <= k < |list| ==> AppliedHan(list[k].id, isMenzen) == Some(list[k].han)
  }

  /** Appends a yaku at the han for this hand, or leaves the list alone when
      the yaku is not worth anything on it. */
  function AddYaku(list: seq<JudgedYaku>, id: YakuId, isMenzen: bool): (r: seq<JudgedYaku>)
    ensures Priced(list, isMenzen) ==> Priced(r, isMenzen)
    ensures |list| <= |r| <= |list| + 1
  {
    match AppliedHan(id, isMenzen)
    case None => list
    case Some(han) => list + [JudgedYaku(id, han)]
  }

  /** `AddYaku` under a condition. */
  function AddIf(list: seq<JudgedYaku>, cond: bool, id: YakuId, isMenzen: bool): (r: seq<JudgedYaku>)
    ensures Priced(list, isMenzen) ==> Priced(r, isMenzen)
    ensures |list| <= |r| <= |list| + 1
  {
    if cond then AddYaku(list, id, isMenzen) else list
  }

  /** A step only ever appends: the entries already listed keep their places. */
  lemma AddYakuKeepsPrefix(list: seq<JudgedYaku>, id: YakuId, isMenzen: bool)
    ensures AddYaku(list, id, isMenzen)[..|list|] == list
  {
  }

  lemma {:induction false} HasAppend(list: seq<JudgedYaku>, e: JudgedYaku, x: YakuId)
    ensures Has(list + [e], x) <==> Has(list, x) || e.id == x
  {
    if list == [] {
      assert ([] + [e])[1..] == [];
    } else {
      assert (list + [e])[1..] == list[1..] + [e];
      HasAppend(list[1..], e, x);
    }
  }

  /** A step adds its own yaku, when the table gives it a value on this
      hand, and nothing else. */
  lemma AddYakuHas(list: seq<JudgedYaku>, id: YakuId, isMenzen: bool, x: YakuId)
    ensures Has(AddYaku(list, id, isMenzen), x) <==>
              Has(list, x) || (x == id && AppliedHan(id, isMenzen).Some?)
  {
    if AppliedHan(id, isMenzen).Some? {
      HasAppend(list, JudgedYaku(id, AppliedHan(id, isMenzen).value), x);
    }
  }

  lemma AddIfHas(list: seq<JudgedYaku>, cond: bool, id: YakuId, isMenzen: bool, x: YakuId)
    ensures Has(AddIf(list, cond, id, isMenzen), x) <==>
              Has(list, x) || (cond && x == id && AppliedHan(id, isMenzen).Some?)
  {
    if cond {
      AddYakuHas(list, id, isMenzen, x);
    }
  }

  function SumHan(list: seq<JudgedYaku>): nat
  {
    if list == [] then 0 else list[0].han + SumHan(list[1..])
  }

  /** A priced list is worth at least one han per entry. */
  lemma {:induction false} SumHanAtLeastLength(list: seq<JudgedYaku>, isMenzen: bool)
    requires Priced(list, isMenzen)
    ensures SumHan(list) >= |list|
  {
    if list != [] {
      AppliedHanFacts(list[0].id);
      assert AppliedHan(list[0].id, isMenzen) == Some(list[0].han);
      SumHanAtLeastLength(list[1..], isMenzen);
    }
  }

  // ---------------------------------------------------------------------------
  // Tiles of a hand

  /** The tiles of the melds, meld by meld. */
  function MeldTiles(ms: seq<Meld>): (r: seq<Tile>)
    ensures forall t :: t in r <==> exists m :: m in ms && t in m.tiles
  {
    if ms == [] then [] else ms[0].tiles + MeldTiles(ms[1..])
  }

  /** Every tile of a standard hand: the melds' tiles, then the pair. */
  function GetAllTiles(p: Problem): (r: seq<Tile>)
    ensures |r| >= 2 && r[|r| - 2] == p.jantou.first && r[|r| - 1] == p.jantou.second
    ensures forall t :: t in r <==>
              t == p.jantou.first || t == p.jantou.second
              || exists m :: m in p.mentsu && t in m.tiles
  {
    MeldTiles(p.mentsu) + p.jantou.Tiles()
  }

  /** The melds whose kind is one of `kinds`, in hand order. */
  function OfKinds(ms: seq<Meld>, kinds: set<MentsuType>): (r: seq<Meld>)
    ensures |r| <= |ms|
    ensures forall m :: m in r <==> m in ms && m.kind in kinds
    ensures (forall k :: 0 <= k < |ms| ==> ms[k].kind !in kinds) ==> r == []
  {
    if ms == [] then []
    else (if ms[0].kind in kinds then [ms[0]] else []) + OfKinds(ms[1..], kinds)
  }

  // ---------------------------------------------------------------------------
  // The yaku predicates

  predicate CheckTanyao(p: Problem)
  {
    forall t :: t in GetAllTiles(p) ==> IsChunchanhai(t)
  }

  predicate CheckToitoi(p: Problem)
  {
    forall i :: 0 <= i < |p.mentsu| ==> p.mentsu[i].kind == Koutsu || p.mentsu[i].kind == Kantsu
  }

  /** A closed triplet or quad that still counts as concealed: on a shanpon
      ron the one holding the winning tile was completed by the discard. */
  predicate IsAnkou(m: Meld, p: Problem)
  {
    && (m.kind == Koutsu || m.kind == Kantsu)
    && !m.isOpen
    && !(p.winType == Ron && p.waitType == Shanpon
         && exists t :: t in m.tiles && IsSameTile(t, p.winningTile))
  }

  function AnkouCount(ms: seq<Meld>, p: Problem): nat
  {
    if ms == [] then 0 else (if IsAnkou(ms[0], p) then 1 else 0) + AnkouCount(ms[1..], p)
  }

  predicate IsClosedTriplet(m: Meld)
  {
    (m.kind == Koutsu || m.kind == Kantsu) && !m.isOpen
  }

  function ClosedTripletCount(ms: seq<Meld>): nat
  {
    if ms == [] then 0 else (if IsClosedTriplet(ms[0]) then 1 else 0) + ClosedTripletCount(ms[1..])
  }

  /** Concealed triplets are among the closed triplets and quads, and only a
      shanpon ron can take one away. */
  lemma {:induction false} AnkouCountBounds(ms: seq<Meld>, p: Problem)
    ensures AnkouCount(ms, p) <= ClosedTripletCount(ms) <= |ms|
    ensures !(p.winType == Ron && p.waitType == Shanpon) ==> AnkouCount(ms, p) == ClosedTripletCount(ms)
  {
    if ms != [] {
      AnkouCountBounds(ms[1..], p);
    }
  }

  predicate CheckSanankou(p: Problem)
  {
    AnkouCount(p.mentsu, p) >= 3
  }

  /** A triplet or quad of honors: the melds the yakuhai step looks at. */
  predicate IsHonorTriplet(m: Meld)
  {
    (m.kind == Koutsu || m.kind == Kantsu) && m.tiles[0].suit == Honor
  }

  /** Whether an honor triplet earns the given value-honor yaku. */
  predicate GivesYakuhai(m: Meld, id: YakuId, seatWind: int, roundWind: int)
  {
    IsHonorTriplet(m) &&
    var v := m.tiles[0].value;
    match id
    case YakuhaiHatsu => v == 5
    case YakuhaiHaku => v == 6
    case YakuhaiChun => v == 7
    case YakuhaiBakaze => v == roundWind
    case YakuhaiJikaze => v == seatWind
    case _ => false
  }

  /** The dragon steps for a triplet of honor value `v`. */
  function DragonSteps(list: seq<JudgedYaku>, v: int, mz: bool): (r: seq<JudgedYaku>)
    ensures Priced(list, mz) ==> Priced(r, mz)
    ensures |list| <= |r|
  {
    var l1 := AddIf(list, v == 5, YakuhaiHatsu, mz);
    var l2 := AddIf(l1, v == 6, YakuhaiHaku, mz);
    AddIf(l2, v == 7, YakuhaiChun, mz)
  }

  lemma DragonStepsHas(list: seq<JudgedYaku>, v: int, mz: bool, x: YakuId)
    ensures Has(DragonSteps(list, v, mz), x) <==>
              Has(list, x)
              || (AppliedHan(x, mz).Some?
                  && ((x == YakuhaiHatsu && v == 5) || (x == YakuhaiHaku && v == 6) || (x == YakuhaiChun && v == 7)))
  {
    var l1 := AddIf(list, v == 5, YakuhaiHatsu, mz);
    var l2 := AddIf(l1, v == 6, YakuhaiHaku, mz);
    AddIfHas(list, v == 5, YakuhaiHatsu, mz, x);
    AddIfHas(l1, v == 6, YakuhaiHaku, mz, x);
    AddIfHas(l2, v == 7, YakuhaiChun, mz, x);
  }

  /** The wind steps for a triplet of honor value `v`: the round wind, then
      the seat wind, which the source adds on one of two exclusive branches. */
  function WindSteps(list: seq<JudgedYaku>, v: int, p: Problem): (r: seq<JudgedYaku>)
    ensures Priced(list, p.isMenzen) ==> Priced(r, p.isMenzen)
    ensures |list| <= |r|
  {
    var mz := p.isMenzen;
    var l1 := AddIf(list, v == p.roundWind, YakuhaiBakaze, mz);
    var l2 := AddIf(l1, v == p.seatWind && v != p.roundWind, YakuhaiJikaze, mz);
    AddIf(l2, v == p.seatWind && v == p.roundWind, YakuhaiJikaze, mz)
  }

  lemma WindStepsHas(list: seq<JudgedYaku>, v: int, p: Problem, x: YakuId)
    ensures Has(WindSteps(list, v, p), x) <==>
              Has(list, x)
              || (AppliedHan(x, p.isMenzen).Some?
                  && ((x == YakuhaiBakaze && v == p.roundWind) || (x == YakuhaiJikaze && v == p.seatWind)))
  {
    var mz := p.isMenzen;
    var l1 := AddIf(list, v == p.roundWind, YakuhaiBakaze, mz);
    var l2 := AddIf(l1, v == p.seatWind && v != p.roundWind, YakuhaiJikaze, mz);
    AddIfHas(list, v == p.roundWind, YakuhaiBakaze, mz, x);
    AddIfHas(l1, v == p.seatWind && v != p.roundWind, YakuhaiJikaze, mz, x);
    AddIfHas(l2, v == p.seatWind && v == p.roundWind, YakuhaiJikaze, mz, x);
  }

  /** The yakuhai steps for one meld, in the order the source takes them. */
  function YakuhaiOfMeld(list: seq<JudgedYaku>, m: Meld, p: Problem): (r: seq<JudgedYaku>)
    ensures Priced(list, p.isMenzen) ==> Priced(r, p.isMenzen)
    ensures |list| <= |r|
  {
    if !IsHonorTriplet(m) then list
    else WindSteps(DragonSteps(list, m.tiles[0].value, p.isMenzen), m.tiles[0].value, p)
  }

  /** One meld adds exactly the value-honor yaku it earns. */
  lemma YakuhaiOfMeldHas(list: seq<JudgedYaku>, m: Meld, p: Problem, x: YakuId)
    ensures Has(YakuhaiOfMeld(list, m, p), x) <==>
              Has(list, x) || (GivesYakuhai(m, x, p.seatWind, p.roundWind) && AppliedHan(x, p.isMenzen).Some?)
  {
    if IsHonorTriplet(m) {
      var v := m.tiles[0].value;
      DragonStepsHas(list, v, p.isMenzen, x);
      WindStepsHas(DragonSteps(list, v, p.isMenzen), v, p, x);
    }
  }

  /** The yakuhai steps over the melds from `ms` onwards. */
  function CheckYakuhai(list: seq<JudgedYaku>, ms: seq<Meld>, p: Problem): (r: seq<JudgedYaku>)
    ensures Priced(list, p.isMenzen) ==> Priced(r, p.isMenzen)
    ensures |list| <= |r|
    decreases ms
  {
    if ms == [] then list
    else CheckYakuhai(YakuhaiOfMeld(list, ms[0], p), ms[1..], p)
  }

  /** The melds add exactly the value-honor yaku one of them earns. */
  lemma {:induction false} CheckYakuhaiHas(list: seq<JudgedYaku>, ms: seq<Meld>, p: Problem, x: YakuId)
    ensures Has(CheckYakuhai(list, ms, p), x) <==>
              Has(list, x)
              || (AppliedHan(x, p.isMenzen).Some?
                  && exists m :: m in ms && GivesYakuhai(m, x, p.seatWind, p.roundWind))
    decreases ms
  {
    if ms != [] {
      YakuhaiOfMeldHas(list, ms[0], p, x);
      CheckYakuhaiHas(YakuhaiOfMeld(list, ms[0], p), ms[1..], p, x);
      assert forall m :: m in ms <==> m == ms[0] || m in ms[1..];
    }
  }

  /** The suits of the hand's suited tiles. */
  function NumberSuits(tiles: seq<Tile>): set<Suit>
  {
    set t | t in tiles && t.suit != Honor :: t.suit
  }

  predicate HasHonor(tiles: seq<Tile>)
  {
    exists t :: t in tiles && t.suit == Honor
  }

  predicate HasNumber(tiles: seq<Tile>)
  {
    exists t :: t in tiles && t.suit != Honor
  }

  predicate CheckHonitsu(p: Problem)
  {
    var tiles := GetAllTiles(p);
    |NumberSuits(tiles)| == 1 && HasHonor(tiles) && HasNumber(tiles)
  }

  predicate CheckChinitsu(p: Problem)
  {
    var tiles := GetAllTiles(p);
    (forall t :: t in tiles ==> t.suit != Honor) && |NumberSuits(tiles)| == 1
  }

  /** A set of one element is that element's singleton. */
  lemma SingletonSet(s: set<Suit>, x: Suit)
    requires x in s
    ensures |s| == 1 <==> s == {x}
  {
    if |s| == 1 {
      assert |s - {x}| == 0;
      assert s - {x} == {};
    }
  }

  /** Half flush: honors plus the tiles of exactly one suit. */
  lemma HonitsuMeaning(p: Problem)
    ensures CheckHonitsu(p) <==>
              HasHonor(GetAllTiles(p))
              && exists n :: n in GetAllTiles(p) && n.suit != Honor
                             && forall t :: t in GetAllTiles(p) ==> t.suit == n.suit || t.suit == Honor
  {
    var tiles := GetAllTiles(p);
    var suits := NumberSuits(tiles);
    if CheckHonitsu(p) {
      var n :| n in tiles && n.suit != Honor;
      SingletonSet(suits, n.suit);
      assert forall t :: t in tiles ==> t.suit == n.suit || t.suit == Honor by {
        forall t | t in tiles ensures t.suit == n.suit || t.suit == Honor {
          if t.suit != Honor {
            assert t.suit in suits;
          }
        }
      }
    }
    if HasHonor(tiles) && exists n :: n in tiles && n.suit != Honor
                                     && forall t :: t in tiles ==> t.suit == n.suit || t.suit == Honor {
      var n :| n in tiles && n.suit != Honor && forall t :: t in tiles ==> t.suit == n.suit || t.suit == Honor;
      assert n.suit in suits;
      assert suits == {n.suit};
      SingletonSet(suits, n.suit);
    }
  }

  /** Full flush: every tile of one suit, no honors. */
  lemma ChinitsuMeaning(p: Problem)
    ensures var tiles := GetAllTiles(p);
            CheckChinitsu(p) <==>
              tiles[0].suit != Honor && forall t :: t in tiles ==> t.suit == tiles[0].suit
  {
    var tiles := GetAllTiles(p);
    var suits := NumberSuits(tiles);
    if CheckChinitsu(p) {
      SingletonSet(suits, tiles[0].suit);
      assert forall t :: t in tiles ==> t.suit == tiles[0].suit by {
        forall t | t in tiles ensures t.suit == tiles[0].suit {
          assert t.suit in suits;
        }
      }
    }
    if tiles[0].suit != Honor && forall t :: t in tiles ==> t.suit == tiles[0].suit {
      assert suits == {tiles[0].suit};
      SingletonSet(suits, tiles[0].suit);
    }
  }

  predicate CheckIipeikou(p: Problem)
  {
    var sl := OfKinds(p.mentsu, {Shuntsu});
    && p.isMenzen
    && |sl| >= 2
    && exists i, j :: 0 <= i < j < |sl| && IsSameTile(sl[i].tiles[0], sl[j].tiles[0])
  }

  /** The grouping key of a sequence: suit and starting value. */
  function Key(m: Meld): (Suit, int)
  {
    (m.tiles[0].suit, m.tiles[0].value)
  }

  function KeyCount(sl: seq<Meld>, k: (Suit, int)): nat
  {
    if sl == [] then 0 else (if Key(sl[0]) == k then 1 else 0) + KeyCount(sl[1..], k)
  }

  /** The keys shared by at least two sequences. */
  function RepeatedKeys(sl: seq<Meld>): set<(Suit, int)>
  {
    set i | 0 <= i < |sl| && KeyCount(sl, Key(sl[i])) >= 2 :: Key(sl[i])
  }

  predicate CheckRyanpeikou(p: Problem)
  {
    var sl := OfKinds(p.mentsu, {Shuntsu});
    p.isMenzen && |sl| >= 4 && |RepeatedKeys(sl)| >= 2
  }

  /** A key counted twice sits at two different positions. */
  lemma {:induction false} KeyCountTwice(sl: seq<Meld>, k: (Suit, int))
    requires KeyCount(sl, k) >= 2
    ensures exists i, j :: 0 <= i < j < |sl| && Key(sl[i]) == k && Key(sl[j]) == k
  {
    if Key(sl[0]) == k {
      KeyCountOnce(sl[1..], k);
      var j :| 0 <= j < |sl[1..]| && Key(sl[1..][j]) == k;
      assert Key(sl[j + 1]) == k;
    } else {
      KeyCountTwice(sl[1..], k);
      var i, j :| 0 <= i < j < |sl[1..]| && Key(sl[1..][i]) == k && Key(sl[1..][j]) == k;
      assert Key(sl[i + 1]) == k && Key(sl[j + 1]) == k;
    }
  }

  lemma {:induction false} KeyCountOnce(sl: seq<Meld>, k: (Suit, int))
    requires KeyCount(sl, k) >= 1
    ensures exists j :: 0 <= j < |sl| && Key(sl[j]) == k
  {
    if Key(sl[0]) != k {
      KeyCountOnce(sl[1..], k);
      var j :| 0 <= j < |sl[1..]| && Key(sl[1..][j]) == k;
      assert Key(sl[j + 1]) == k;
    }
  }

  /** Every two-identical-pairs hand also has the one-identical-pair shape,
      which is why the list leaves out iipeikou when ryanpeikou holds. */
  lemma RyanpeikouShapeHasIipeikouShape(p: Problem)
    requires CheckRyanpeikou(p)
    ensures CheckIipeikou(p)
  {
    RepeatedKeyGivesPair(OfKinds(p.mentsu, {Shuntsu}));
  }

  /** A repeated key is two sequences starting on the same tile. */
  lemma RepeatedKeyGivesPair(sl: seq<Meld>)
    requires RepeatedKeys(sl) != {}
    ensures exists i, j :: 0 <= i < j < |sl| && IsSameTile(sl[i].tiles[0], sl[j].tiles[0])
  {
    var k :| k in RepeatedKeys(sl);
    var a :| 0 <= a < |sl| && KeyCount(sl, Key(sl[a])) >= 2 && Key(sl[a]) == k;
    KeyCountTwice(sl, k);
    var i, j :| 0 <= i < j < |sl| && Key(sl[i]) == k && Key(sl[j]) == k;
    assert IsSameTile(sl[i].tiles[0], sl[j].tiles[0]);
  }

  predicate CheckHonroutou(p: Problem)
  {
    forall t :: t in GetAllTiles(p) ==> IsYaochuhai(t)
  }

  predicate CheckSanshokuDoujun(p: Problem)
  {
    var sl := OfKinds(p.mentsu, {Shuntsu});
    && |sl| >= 3
    && exists i, j, k :: 0 <= i < |sl| && 0 <= j < |sl| && 0 <= k < |sl|
                         && sl[i].tiles[0].suit == Man && sl[j].tiles[0].suit == Pin
                         && sl[k].tiles[0].suit == Sou
                         && sl[i].tiles[0].value == sl[j].tiles[0].value == sl[k].tiles[0].value
  }

  predicate CheckIttsu(p: Problem)
  {
    var sl := OfKinds(p.mentsu, {Shuntsu});
    && |sl| >= 3
    && exists i, j, k :: 0 <= i < |sl| && 0 <= j < |sl| && 0 <= k < |sl|
                         && sl[i].tiles[0].suit == sl[j].tiles[0].suit == sl[k].tiles[0].suit
                         && sl[i].tiles[0].value == 1 && sl[j].tiles[0].value == 4
                         && sl[k].tiles[0].value == 7
  }

  /** A sequence starting at 1 or 7 touches a terminal. */
  predicate EdgeSequence(m: Meld)
  {
    m.tiles[0].value == 1 || m.tiles[0].value == 7
  }

  predicate ChantaMeld(m: Meld)
  {
    if m.kind == Shuntsu then EdgeSequence(m) else IsYaochuhai(m.tiles[0])
  }

  predicate CheckChanta(p: Problem)
  {
    && (IsYaochuhai(p.jantou.first) || IsYaochuhai(p.jantou.second))
    && (forall i :: 0 <= i < |p.mentsu| ==> ChantaMeld(p.mentsu[i]))
    && (p.jantou.first.suit == Honor
        || exists i :: 0 <= i < |p.mentsu| && p.mentsu[i].kind != Shuntsu && p.mentsu[i].tiles[0].suit == Honor)
  }

  /** A suited 1 or 9. */
  predicate IsTerminalNumber(t: Tile)
  {
    t.suit != Honor && (t.value == 1 || t.value == 9)
  }

  predicate JunchanMeld(m: Meld)
  {
    if m.kind == Shuntsu then EdgeSequence(m) else IsTerminalNumber(m.tiles[0])
  }

  predicate CheckJunchan(p: Problem)
  {
    IsTerminalNumber(p.jantou.first) && forall i :: 0 <= i < |p.mentsu| ==> JunchanMeld(p.mentsu[i])
  }

  predicate CheckSanshokuDoukou(p: Problem)
  {
    var kl := OfKinds(p.mentsu, {Koutsu, Kantsu});
    && |kl| >= 3
    && exists i, j, k :: 0 <= i < |kl| && 0 <= j < |kl| && 0 <= k < |kl|
                         && kl[i].tiles[0].suit == Man && kl[j].tiles[0].suit == Pin
                         && kl[k].tiles[0].suit == Sou
                         && kl[i].tiles[0].value == kl[j].tiles[0].value == kl[k].tiles[0].value
  }

  predicate CheckSankantsu(p: Problem)
  {
    |OfKinds(p.mentsu, {Kantsu})| >= 3
  }

  /** A dragon by the engine's numbering: honor 5, 6 or 7. */
  predicate IsDragon(t: Tile)
  {
    t.suit == Honor && 5 <= t.value <= 7
  }

  function DragonTripletCount(ms: seq<Meld>): nat
  {
    if ms == [] then 0
    else (if (ms[0].kind == Koutsu || ms[0].kind == Kantsu) && IsDragon(ms[0].tiles[0]) then 1 else 0)
         + DragonTripletCount(ms[1..])
  }

  predicate CheckShousangen(p: Problem)
  {
    DragonTripletCount(p.mentsu) == 2 && IsDragon(p.jantou.first)
  }

  /** The value-honor yaku a meld of the hand earns. */
  predicate YakuhaiAwarded(p: Problem, id: YakuId)
  {
    exists m :: m in p.mentsu && GivesYakuhai(m, id, p.seatWind, p.roundWind)
  }

  /** The condition under which the standard branch adds each yaku. */
  predicate Awarded(p: Problem, id: YakuId)
  {
    match id
    case Riichi => p.isMenzen
    case MenzenTsumo => p.isMenzen && p.winType == Tsumo
    case Tanyao => CheckTanyao(p)
    case Pinfu => IsPinfu(p)
    case Toitoi => CheckToitoi(p)
    case Sanankou => CheckSanankou(p)
    case YakuhaiHaku => YakuhaiAwarded(p, id)
    case YakuhaiHatsu => YakuhaiAwarded(p, id)
    case YakuhaiChun => YakuhaiAwarded(p, id)
    case YakuhaiBakaze => YakuhaiAwarded(p, id)
    case YakuhaiJikaze => YakuhaiAwarded(p, id)
    case Honitsu => CheckHonitsu(p)
    case Chinitsu => CheckChinitsu(p)
    case Iipeikou => CheckIipeikou(p) && !CheckRyanpeikou(p)
    case Honroutou => CheckHonroutou(p)
    case SanshokuDoujun => CheckSanshokuDoujun(p)
    case Ittsu => CheckIttsu(p)
    case Chanta => CheckChanta(p)
    case Junchan => CheckJunchan(p)
    case SanshokuDoukou => CheckSanshokuDoukou(p)
    case Sankantsu => CheckSankantsu(p)
    case Shousangen => CheckShousangen(p)
    case Ryanpeikou => CheckRyanpeikou(p)
    case Chiitoitsu => false
    case DoubleRiichi => false
  }

  /** The number of checks the standard branch asks besides the value
      honors, which it asks after the sixth. */
  const STEP_COUNT: nat := 18
  const YAKUHAI_AFTER: nat := 6

  /** The yaku the standard branch checks, in the order it checks them. */
  function StepAt(k: nat): YakuId
    requires k < STEP_COUNT
  {
    match k
    case 0 => Riichi
    case 1 => MenzenTsumo
    case 2 => Tanyao
    case 3 => Pinfu
    case 4 => Toitoi
    case 5 => Sanankou
    case 6 => Honitsu
    case 7 => Chinitsu
    case 8 => Iipeikou
    case 9 => Honroutou
    case 10 => SanshokuDoujun
    case 11 => Ittsu
    case 12 => Chanta
    case 13 => Junchan
    case 14 => SanshokuDoukou
    case 15 => Sankantsu
    case 16 => Shousangen
    case _ => Ryanpeikou
  }

  /** The value-honor yaku and the two yaku the standard branch never adds
      have no step; every other yaku has one. */
  lemma StepOf(x: YakuId)
    requires x !in {YakuhaiHaku, YakuhaiHatsu, YakuhaiChun, YakuhaiBakaze, YakuhaiJikaze,
                    Chiitoitsu, DoubleRiichi}
    ensures exists k :: 0 <= k < STEP_COUNT && StepAt(k) == x
  {
    match x
    case Riichi => assert StepAt(0) == x;
    case MenzenTsumo => assert StepAt(1) == x;
    case Tanyao => assert StepAt(2) == x;
    case Pinfu => assert StepAt(3) == x;
    case Toitoi => assert StepAt(4) == x;
    case Sanankou => assert StepAt(5) == x;
    case Honitsu => assert StepAt(6) == x;
    case Chinitsu => assert StepAt(7) == x;
    case Iipeikou => assert StepAt(8) == x;
    case Honroutou => assert StepAt(9) == x;
    case SanshokuDoujun => assert StepAt(10) == x;
    case Ittsu => assert StepAt(11) == x;
    case Chanta => assert StepAt(12) == x;
    case Junchan => assert StepAt(13) == x;
    case SanshokuDoukou => assert StepAt(14) == x;
    case Sankantsu => assert StepAt(15) == x;
    case Shousangen => assert StepAt(16) == x;
    case Ryanpeikou => assert StepAt(17) == x;
  }

  /** The steps `from` up to `to`, each adding its yaku when `award` holds
      for it. */
  function RunSteps(list: seq<JudgedYaku>, award: YakuId -> bool, isMenzen: bool, from: nat, to: nat): (r: seq<JudgedYaku>)
    requires from <= to <= STEP_COUNT
    ensures Priced(list, isMenzen) ==> Priced(r, isMenzen)
    ensures |list| <= |r| && |r| <= |list| + to - from
    decreases (to as int) - (from as int)
  {
    if from == to then list
    else RunSteps(AddIf(list, award(StepAt(from)), StepAt(from), isMenzen), award, isMenzen, from + 1, to)
  }

  /** The steps add exactly the awarded yaku among theirs that the table
      gives a value on this hand. */
  lemma {:induction false} RunStepsHas(list: seq<JudgedYaku>, award: YakuId -> bool, isMenzen: bool, from: nat, to: nat, x: YakuId)
    requires from <= to <= STEP_COUNT
    ensures Has(RunSteps(list, award, isMenzen, from, to), x) <==>
              Has(list, x) || (award(x) && AppliedHan(x, isMenzen).Some? && HasStepIn(x, from, to))
    decreases (to as int) - (from as int)
  {
    if from < to {
      var y := StepAt(from);
      var next := AddIf(list, award(y), y, isMenzen);
      assert RunSteps(list, award, isMenzen, from, to) == RunSteps(next, award, isMenzen, from + 1, to);
      AddIfHas(list, award(y), y, isMenzen, x);
      RunStepsHas(next, award, isMenzen, from + 1, to, x);
    }
  }

  /** Whether one of the steps `from` up to `to` checks `x`. */
  predicate HasStepIn(x: YakuId, from: nat, to: nat)
    requires from <= to <= STEP_COUNT
    decreases (to as int) - (from as int)
  {
    from < to && (StepAt(from) == x || HasStepIn(x, from + 1, to))
  }

  lemma {:induction false} HasStepInIff(x: YakuId, from: nat, to: nat)
    requires from <= to <= STEP_COUNT
    ensures HasStepIn(x, from, to) <==> (exists k :: from <= k < to && StepAt(k) == x)
    decreases (to as int) - (from as int)
  {
    if from < to {
      HasStepInIff(x, from + 1, to);
      StepRangeSplit(from, to, x);
    }
  }

  lemma StepRangeSplit(from: nat, to: nat, x: YakuId)
    requires from < to <= STEP_COUNT
    ensures (exists k :: from <= k < to && StepAt(k) == x) <==>
            StepAt(from) == x || exists k :: from + 1 <= k < to && StepAt(k) == x
  {
  }

  /** The standard branch's condition for each yaku, as a function. */
  function AwardOf(p: Problem): YakuId -> bool
  {
    id => Awarded(p, id)
  }

  /** The list as it stands after the value honors. */
  function EarlyYakuList(p: Problem): seq<JudgedYaku>
  {
    CheckYakuhai(RunSteps([], AwardOf(p), p.isMenzen, 0, YAKUHAI_AFTER), p.mentsu, p)
  }

  /** The yaku list of a standard hand: riichi through sanankou, the value
      honors meld by meld, then honitsu through ryanpeikou. */
  function StandardYakuList(p: Problem): (r: seq<JudgedYaku>)
    ensures Priced(r, p.isMenzen)
  {
    RunSteps(EarlyYakuList(p), AwardOf(p), p.isMenzen, YAKUHAI_AFTER, STEP_COUNT)
  }

  lemma EarlyYakuListHas(p: Problem, x: YakuId)
    ensures Has(EarlyYakuList(p), x) <==>
              || (Awarded(p, x) && AppliedHan(x, p.isMenzen).Some? && exists k :: 0 <= k < YAKUHAI_AFTER && StepAt(k) == x)
              || (AppliedHan(x, p.isMenzen).Some? && YakuhaiAwarded(p, x))
  {
    EarlyStagesHas(AwardOf(p), p, x, 0, YAKUHAI_AFTER);
    assert AwardOf(p)(x) == Awarded(p, x);
  }

  /** Membership after the first two stages, for any condition on the steps
      and any range of steps before the value honors. */
  lemma EarlyStagesHas(award: YakuId -> bool, p: Problem, x: YakuId, lo: nat, mid: nat)
    requires lo <= mid <= STEP_COUNT
    ensures Has(CheckYakuhai(RunSteps([], award, p.isMenzen, lo, mid), p.mentsu, p), x) <==>
              || (award(x) && AppliedHan(x, p.isMenzen).Some? && exists k :: lo <= k < mid && StepAt(k) == x)
              || (AppliedHan(x, p.isMenzen).Some? && YakuhaiAwarded(p, x))
  {
    var early := RunSteps([], award, p.isMenzen, lo, mid);
    RunStepsHas([], award, p.isMenzen, lo, mid, x);
    HasStepInIff(x, lo, mid);
    CheckYakuhaiHas(early, p.mentsu, p, x);
  }

  /** The membership theorem for the standard branch: the list holds a yaku
      exactly when its condition holds and the table gives it a value on a
      hand this open or closed. */
  lemma StandardYakuMembership(p: Problem, x: YakuId)
    ensures Has(StandardYakuList(p), x) <==> Awarded(p, x) && AppliedHan(x, p.isMenzen).Some?
  {
    EarlyYakuListHas(p, x);
    RunStepsHas(EarlyYakuList(p), AwardOf(p), p.isMenzen, YAKUHAI_AFTER, STEP_COUNT, x);
    HasStepInIff(x, YAKUHAI_AFTER, STEP_COUNT);
    assert AwardOf(p)(x) == Awarded(p, x);
    AwardedBySource(p, x);
  }

  /** Each yaku the standard branch can award comes either from one of the
      steps, before or after the value honors, or from the value honors. */
  lemma AwardedBySource(p: Problem, x: YakuId)
    ensures Awarded(p, x) && AppliedHan(x, p.isMenzen).Some? <==>
              || (Awarded(p, x) && AppliedHan(x, p.isMenzen).Some? && exists k :: 0 <= k < YAKUHAI_AFTER && StepAt(k) == x)
              || (AppliedHan(x, p.isMenzen).Some? && YakuhaiAwarded(p, x))
              || (Awarded(p, x) && AppliedHan(x, p.isMenzen).Some? && exists k :: YAKUHAI_AFTER <= k < STEP_COUNT && StepAt(k) == x)
  {
    if x in {YakuhaiHaku, YakuhaiHatsu, YakuhaiChun, YakuhaiBakaze, YakuhaiJikaze, Chiitoitsu, DoubleRiichi} {
      NoStep(x);
      assert Awarded(p, x) <==> YakuhaiAwarded(p, x);
    } else {
      StepOf(x);
      NotYakuhai(p, x);
    }
  }

  lemma NoStep(x: YakuId)
    requires x in {YakuhaiHaku, YakuhaiHatsu, YakuhaiChun, YakuhaiBakaze, YakuhaiJikaze, Chiitoitsu, DoubleRiichi}
    ensures forall k :: 0 <= k < STEP_COUNT ==> StepAt(k) != x
  {
  }

  lemma NotYakuhai(p: Problem, x: YakuId)
    requires x !in {YakuhaiHaku, YakuhaiHatsu, YakuhaiChun, YakuhaiBakaze, YakuhaiJikaze}
    ensures !YakuhaiAwarded(p, x)
  {
  }

  // ---------------------------------------------------------------------------
  // Multiplicity and order of the standard list

  /** The yaku a meld can earn rather than the hand as a whole. */
  const VALUE_HONORS: set<YakuId> := {YakuhaiHaku, YakuhaiHatsu, YakuhaiChun, YakuhaiBakaze, YakuhaiJikaze}

  /** The number of entries for the yaku. */
  function Count(list: seq<JudgedYaku>, id: YakuId): nat
  {
    if list == [] then 0
    else Count(list[..|list| - 1], id) + (if list[|list| - 1].id == id then 1 else 0)
  }

  lemma CountSnoc(list: seq<JudgedYaku>, e: JudgedYaku, x: YakuId)
    ensures Count(list + [e], x) == Count(list, x) + (if e.id == x then 1 else 0)
  {
    assert (list + [e])[..|list|] == list;
  }

  /** The list holds an entry for a yaku exactly when it counts one. */
  lemma {:induction false} CountHas(list: seq<JudgedYaku>, x: YakuId)
    ensures Has(list, x) <==> Count(list, x) > 0
    decreases |list|
  {
    HasIndex(list, x);
    if list != [] {
      var init := list[..|list| - 1];
      CountHas(init, x);
      HasIndex(init, x);
      assert list == init + [list[|list| - 1]];
      assert forall k :: 0 <= k < |init| ==> init[k] == list[k];
    }
  }

  /** Runs hold no triplet, concealed or of dragons. */
  lemma {:induction false} RunsHaveNoTriplets(ms: seq<Meld>)
    requires forall k :: 0 <= k < |ms| ==> ms[k].kind == Shuntsu
    ensures ClosedTripletCount(ms) == 0 && DragonTripletCount(ms) == 0
    decreases ms
  {
    if ms != [] {
      RunsHaveNoTriplets(ms[1..]);
    }
  }

  /** A hand of runs only scores none of the triplet yaku and no value
      honor. */
  lemma RunsOnly(p: Problem)
    requires |p.mentsu| >= 1 && forall k :: 0 <= k < |p.mentsu| ==> p.mentsu[k].kind == Shuntsu
    ensures !CheckToitoi(p) && !CheckSanankou(p) && !CheckSanshokuDoukou(p)
    ensures !CheckSankantsu(p) && !CheckShousangen(p)
    ensures forall x :: MeldsGiving(p.mentsu, x, p.seatWind, p.roundWind) == 0
  {
    var ms := p.mentsu;
    RunsHaveNoTriplets(ms);
    AnkouCountBounds(ms, p);
    forall x ensures MeldsGiving(ms, x, p.seatWind, p.roundWind) == 0 {
      MeldsGivingPositive(ms, x, p.seatWind, p.roundWind);
    }
  }

  /** The melds that earn a value-honor yaku. */
  function MeldsGiving(ms: seq<Meld>, id: YakuId, seatWind: int, roundWind: int): nat
  {
    if ms == [] then 0
    else (if GivesYakuhai(ms[0], id, seatWind, roundWind) then 1 else 0) + MeldsGiving(ms[1..], id, seatWind, roundWind)
  }

  /** How many entries the standard branch makes for a yaku whose table
      value applies: one per earning meld for a value honor, and one for any
      other yaku whose condition holds. */
  function AwardCount(p: Problem, x: YakuId): nat
  {
    if x in VALUE_HONORS then MeldsGiving(p.mentsu, x, p.seatWind, p.roundWind)
    else if Awarded(p, x) then 1 else 0
  }

  lemma AddYakuCount(list: seq<JudgedYaku>, id: YakuId, isMenzen: bool, x: YakuId)
    ensures Count(AddYaku(list, id, isMenzen), x) ==
              Count(list, x) + (if x == id && AppliedHan(id, isMenzen).Some? then 1 else 0)
  {
    if AppliedHan(id, isMenzen).Some? {
      CountSnoc(list, JudgedYaku(id, AppliedHan(id, isMenzen).value), x);
    }
  }

  lemma AddIfCount(list: seq<JudgedYaku>, cond: bool, id: YakuId, isMenzen: bool, x: YakuId)
    ensures Count(AddIf(list, cond, id, isMenzen), x) ==
              Count(list, x) + (if cond && x == id && AppliedHan(id, isMenzen).Some? then 1 else 0)
  {
    if cond {
      AddYakuCount(list, id, isMenzen, x);
    }
  }

  lemma DragonStepsCount(list: seq<JudgedYaku>, v: int, mz: bool, x: YakuId)
    ensures Count(DragonSteps(list, v, mz), x) ==
              Count(list, x)
              + (if AppliedHan(x, mz).Some?
                    && ((x == YakuhaiHatsu && v == 5) || (x == YakuhaiHaku && v == 6) || (x == YakuhaiChun && v == 7))
                 then 1 else 0)
  {
    var d1 := AddIf(list, v == 5, YakuhaiHatsu, mz);
    var d2 := AddIf(d1, v == 6, YakuhaiHaku, mz);
    AddIfCount(list, v == 5, YakuhaiHatsu, mz, x);
    AddIfCount(d1, v == 6, YakuhaiHaku, mz, x);
    AddIfCount(d2, v == 7, YakuhaiChun, mz, x);
  }

  /** The seat wind is added on one of two exclusive branches, so a double
      wind still adds it once. */
  lemma WindStepsCount(list: seq<JudgedYaku>, v: int, p: Problem, x: YakuId)
    ensures Count(WindSteps(list, v, p), x) ==
              Count(list, x)
              + (if AppliedHan(x, p.isMenzen).Some?
                    && ((x == YakuhaiBakaze && v == p.roundWind) || (x == YakuhaiJikaze && v == p.seatWind))
                 then 1 else 0)
  {
    var mz := p.isMenzen;
    var w1 := AddIf(list, v == p.roundWind, YakuhaiBakaze, mz);
    var w2 := AddIf(w1, v == p.seatWind && v != p.roundWind, YakuhaiJikaze, mz);
    AddIfCount(list, v == p.roundWind, YakuhaiBakaze, mz, x);
    AddIfCount(w1, v == p.seatWind && v != p.roundWind, YakuhaiJikaze, mz, x);
    AddIfCount(w2, v == p.seatWind && v == p.roundWind, YakuhaiJikaze, mz, x);
  }

  /** One meld adds one entry for each value-honor yaku it earns. */
  lemma YakuhaiOfMeldCount(list: seq<JudgedYaku>, m: Meld, p: Problem, x: YakuId)
    ensures Count(YakuhaiOfMeld(list, m, p), x) ==
              Count(list, x) + (if GivesYakuhai(m, x, p.seatWind, p.roundWind) && AppliedHan(x, p.isMenzen).Some? then 1 else 0)
  {
    if IsHonorTriplet(m) {
      var v := m.tiles[0].value;
      DragonStepsCount(list, v, p.isMenzen, x);
      WindStepsCount(DragonSteps(list, v, p.isMenzen), v, p, x);
    }
  }

  /** The melds add one entry per meld earning a value-honor yaku. */
  lemma {:induction false} CheckYakuhaiCount(list: seq<JudgedYaku>, ms: seq<Meld>, p: Problem, x: YakuId)
    ensures Count(CheckYakuhai(list, ms, p), x) ==
              Count(list, x) + (if AppliedHan(x, p.isMenzen).Some? then MeldsGiving(ms, x, p.seatWind, p.roundWind) else 0)
    decreases ms
  {
    if ms != [] {
      YakuhaiOfMeldCount(list, ms[0], p, x);
      CheckYakuhaiCount(YakuhaiOfMeld(list, ms[0], p), ms[1..], p, x);
    }
  }

  /** Only value-honor yaku are earned by melds. */
  lemma {:induction false} MeldsGivingOther(ms: seq<Meld>, x: YakuId, seatWind: int, roundWind: int)
    requires x !in VALUE_HONORS
    ensures MeldsGiving(ms, x, seatWind, roundWind) == 0
    decreases ms
  {
    if ms != [] {
      MeldsGivingOther(ms[1..], x, seatWind, roundWind);
    }
  }

  /** Some meld earns a value-honor yaku exactly when the count of earning
      melds is positive. */
  lemma {:induction false} MeldsGivingPositive(ms: seq<Meld>, x: YakuId, seatWind: int, roundWind: int)
    ensures MeldsGiving(ms, x, seatWind, roundWind) > 0 <==>
              exists m :: m in ms && GivesYakuhai(m, x, seatWind, roundWind)
    decreases ms
  {
    if ms != [] {
      MeldsGivingPositive(ms[1..], x, seatWind, roundWind);
      assert forall m :: m in ms <==> m == ms[0] || m in ms[1..];
    }
  }

  /** The place of a yaku in the order the standard branch checks it: the
      value honors share one place, between sanankou and honitsu. */
  function CheckRank(id: YakuId): nat
  {
    match id
    case Riichi => 0
    case MenzenTsumo => 1
    case Tanyao => 2
    case Pinfu => 3
    case Toitoi => 4
    case Sanankou => 5
    case YakuhaiHaku => 6
    case YakuhaiHatsu => 6
    case YakuhaiChun => 6
    case YakuhaiBakaze => 6
    case YakuhaiJikaze => 6
    case Honitsu => 7
    case Chinitsu => 8
    case Iipeikou => 9
    case Honroutou => 10
    case SanshokuDoujun => 11
    case Ittsu => 12
    case Chanta => 13
    case Junchan => 14
    case SanshokuDoukou => 15
    case Sankantsu => 16
    case Shousangen => 17
    case Ryanpeikou => 18
    case Chiitoitsu => 19
    case DoubleRiichi => 19
  }

  /** The place of step `k`: the steps before the value honors keep their
      index, the ones after move up by one. */
  function StepRank(k: nat): nat
  {
    if k < YAKUHAI_AFTER then k else k + 1
  }

  lemma StepAtRank(k: nat)
    requires k < STEP_COUNT
    ensures CheckRank(StepAt(k)) == StepRank(k)
  {
  }

  /** No yaku has two steps. */
  lemma StepAtInjective(i: nat, j: nat)
    requires i < STEP_COUNT && j < STEP_COUNT && StepAt(i) == StepAt(j)
    ensures i == j
  {
    StepAtRank(i);
    StepAtRank(j);
  }

  /** The entries follow the check order. */
  predicate InCheckOrder(list: seq<JudgedYaku>)
  {
    forall i, j :: 0 <= i < j < |list| ==> CheckRank(list[i].id) <= CheckRank(list[j].id)
  }

  predicate RanksAtMost(list: seq<JudgedYaku>, b: nat)
  {
    forall i :: 0 <= i < |list| ==> CheckRank(list[i].id) <= b
  }

  lemma AddIfOrder(list: seq<JudgedYaku>, cond: bool, id: YakuId, isMenzen: bool, b: nat)
    requires InCheckOrder(list) && RanksAtMost(list, b) && b <= CheckRank(id)
    ensures InCheckOrder(AddIf(list, cond, id, isMenzen)) && RanksAtMost(AddIf(list, cond, id, isMenzen), CheckRank(id))
  {
  }

  /** The value-honor steps of one meld keep the order. */
  lemma YakuhaiOfMeldOrder(list: seq<JudgedYaku>, m: Meld, p: Problem)
    requires InCheckOrder(list) && RanksAtMost(list, 6)
    ensures InCheckOrder(YakuhaiOfMeld(list, m, p)) && RanksAtMost(YakuhaiOfMeld(list, m, p), 6)
  {
    if IsHonorTriplet(m) {
      var v := m.tiles[0].value;
      var mz := p.isMenzen;
      var d1 := AddIf(list, v == 5, YakuhaiHatsu, mz);
      var d2 := AddIf(d1, v == 6, YakuhaiHaku, mz);
      var d3 := AddIf(d2, v == 7, YakuhaiChun, mz);
      AddIfOrder(list, v == 5, YakuhaiHatsu, mz, 6);
      AddIfOrder(d1, v == 6, YakuhaiHaku, mz, 6);
      AddIfOrder(d2, v == 7, YakuhaiChun, mz, 6);
      var w1 := AddIf(d3, v == p.roundWind, YakuhaiBakaze, mz);
      var w2 := AddIf(w1, v == p.seatWind && v != p.roundWind, YakuhaiJikaze, mz);
      AddIfOrder(d3, v == p.roundWind, YakuhaiBakaze, mz, 6);
      AddIfOrder(w1, v == p.seatWind && v != p.roundWind, YakuhaiJikaze, mz, 6);
      AddIfOrder(w2, v == p.seatWind && v == p.roundWind, YakuhaiJikaze, mz, 6);
    }
  }

  lemma {:induction false} CheckYakuhaiOrder(list: seq<JudgedYaku>, ms: seq<Meld>, p: Problem)
    requires InCheckOrder(list) && RanksAtMost(list, 6)
    ensures InCheckOrder(CheckYakuhai(list, ms, p)) && RanksAtMost(CheckYakuhai(list, ms, p), 6)
    decreases ms
  {
    if ms != [] {
      YakuhaiOfMeldOrder(list, ms[0], p);
      CheckYakuhaiOrder(YakuhaiOfMeld(list, ms[0], p), ms[1..], p);
    }
  }

  /** The steps keep the order: each one appends at a later place. */
  lemma {:induction false} RunStepsOrder(list: seq<JudgedYaku>, award: YakuId -> bool, isMenzen: bool, from: nat, to: nat, b: nat)
    requires from <= to <= STEP_COUNT
    requires InCheckOrder(list) && RanksAtMost(list, b) && (from < to ==> b <= StepRank(from))
    ensures var r := RunSteps(list, award, isMenzen, from, to);
            InCheckOrder(r) && RanksAtMost(r, if from < to then StepRank(to - 1) else b)
    decreases (to as int) - (from as int)
  {
    if from < to {
      var y := StepAt(from);
      var next := AddIf(list, award(y), y, isMenzen);
      assert RunSteps(list, award, isMenzen, from, to) == RunSteps(next, award, isMenzen, from + 1, to);
      StepAtRank(from);
      AddIfOrder(list, award(y), y, isMenzen, b);
      assert from + 1 < to ==> StepRank(from) <= StepRank(from + 1);
      RunStepsOrder(next, award, isMenzen, from + 1, to, StepRank(from));
    }
  }

  /** The steps add one entry for an awarded yaku among theirs that the
      table gives a value on this hand, and nothing for any other. */
  lemma {:induction false} RunStepsCount(list: seq<JudgedYaku>, award: YakuId -> bool, isMenzen: bool, from: nat, to: nat, x: YakuId)
    requires from <= to <= STEP_COUNT
    ensures Count(RunSteps(list, award, isMenzen, from, to), x) ==
              Count(list, x) + (if award(x) && AppliedHan(x, isMenzen).Some? && HasStepIn(x, from, to) then 1 else 0)
    decreases (to as int) - (from as int)
  {
    if from < to {
      RunStepsCount(AddIf(list, award(StepAt(from)), StepAt(from), isMenzen), award, isMenzen, from + 1, to, x);
      RunStepsCountStep(list, award, isMenzen, from, to, x);
    }
  }

  /** The inductive step of `RunStepsCount`: the first step's entry and the
      later steps' entries together. */
  lemma RunStepsCountStep(list: seq<JudgedYaku>, award: YakuId -> bool, isMenzen: bool, from: nat, to: nat, x: YakuId)
    requires from < to <= STEP_COUNT
    requires var next := AddIf(list, award(StepAt(from)), StepAt(from), isMenzen);
             Count(RunSteps(next, award, isMenzen, from + 1, to), x) ==
               Count(next, x) + (if award(x) && AppliedHan(x, isMenzen).Some? && HasStepIn(x, from + 1, to) then 1 else 0)
    ensures Count(RunSteps(list, award, isMenzen, from, to), x) ==
              Count(list, x) + (if award(x) && AppliedHan(x, isMenzen).Some? && HasStepIn(x, from, to) then 1 else 0)
  {
    var y := StepAt(from);
    var next := AddIf(list, award(y), y, isMenzen);
    assert RunSteps(list, award, isMenzen, from, to) == RunSteps(next, award, isMenzen, from + 1, to);
    LaterStepsMiss(from, to);
    AddIfCount(list, award(y), y, isMenzen, x);
    CountSum(Count(RunSteps(list, award, isMenzen, from, to), x), Count(next, x), Count(list, x),
             award(x) && AppliedHan(x, isMenzen).Some?, y == x, HasStepIn(x, from + 1, to), HasStepIn(x, from, to));
  }

  /** One step of the count: the step's entry and the later steps' entry
      are never both made, since no later step checks the same yaku. */
  lemma CountSum(total: int, nextCount: int, base: int, hit: bool, isStep: bool, later: bool, any: bool)
    requires any == (isStep || later)
    requires isStep ==> !later
    requires nextCount == base + (if hit && isStep then 1 else 0)
    requires total == nextCount + (if hit && later then 1 else 0)
    ensures total == base + (if hit && any then 1 else 0)
  {
  }

  /** No later step checks the yaku of step `from` again. */
  lemma LaterStepsMiss(from: nat, to: nat)
    requires from < to <= STEP_COUNT
    ensures !HasStepIn(StepAt(from), from + 1, to)
  {
    HasStepInIff(StepAt(from), from + 1, to);
    LaterStepsDiffer(from, to);
  }

  lemma LaterStepsDiffer(from: nat, to: nat)
    requires from < to <= STEP_COUNT
    ensures forall k :: from + 1 <= k < to ==> StepAt(k) != StepAt(from)
  {
    forall k | from + 1 <= k < to ensures StepAt(k) != StepAt(from) {
      if StepAt(k) == StepAt(from) {
        StepAtInjective(k, from);
      }
    }
  }

  /** The standard list counts the value-honor entries of the melds and
      one entry per step whose yaku is awarded and priced. */
  lemma StandardCountParts(p: Problem, x: YakuId)
    ensures Count(StandardYakuList(p), x) ==
              (if AppliedHan(x, p.isMenzen).Some? then MeldsGiving(p.mentsu, x, p.seatWind, p.roundWind) else 0)
              + (if AwardOf(p)(x) && AppliedHan(x, p.isMenzen).Some? && exists k :: 0 <= k < STEP_COUNT && StepAt(k) == x then 1 else 0)
  {
    StagesCount(AwardOf(p), p, x, 0, YAKUHAI_AFTER, STEP_COUNT);
  }

  /** The count through the three stages of the standard branch, for any
      condition on the steps and any split of the steps around the value
      honors. */
  lemma StagesCount(award: YakuId -> bool, p: Problem, x: YakuId, lo: nat, mid: nat, hi: nat)
    requires lo <= mid <= hi <= STEP_COUNT
    ensures var mz := p.isMenzen;
            Count(RunSteps(CheckYakuhai(RunSteps([], award, mz, lo, mid), p.mentsu, p), award, mz, mid, hi), x) ==
              (if AppliedHan(x, mz).Some? then MeldsGiving(p.mentsu, x, p.seatWind, p.roundWind) else 0)
              + (if award(x) && AppliedHan(x, mz).Some? && exists k :: lo <= k < hi && StepAt(k) == x then 1 else 0)
  {
    var mz := p.isMenzen;
    var early := RunSteps([], award, mz, lo, mid);
    RunStepsCount([], award, mz, lo, mid, x);
    CheckYakuhaiCount(early, p.mentsu, p, x);
    RunStepsCount(CheckYakuhai(early, p.mentsu, p), award, mz, mid, hi, x);
    HasStepInIff(x, lo, mid);
    HasStepInIff(x, mid, hi);
    StepRangeJoin(x, lo, mid, hi);
  }

  /** A yaku has a step in a range exactly when it has one in the first or
      in the second part of the range, and never in both. */
  lemma StepRangeJoin(x: YakuId, lo: nat, mid: nat, hi: nat)
    requires lo <= mid <= hi <= STEP_COUNT
    ensures (exists k :: lo <= k < hi && StepAt(k) == x) <==>
              (exists k :: lo <= k < mid && StepAt(k) == x) || (exists k :: mid <= k < hi && StepAt(k) == x)
    ensures !((exists k :: lo <= k < mid && StepAt(k) == x) && (exists k :: mid <= k < hi && StepAt(k) == x))
  {
    if exists k :: lo <= k < mid && StepAt(k) == x {
      var i :| lo <= i < mid && StepAt(i) == x;
      forall j | mid <= j < hi ensures StepAt(j) != x {
        if StepAt(j) == x {
          StepAtInjective(i, j);
        }
      }
    }
  }

  /** The two sources of entries add up to the award count: a value honor
      has no step, and every other yaku has one exactly when it can be
      awarded and is earned by no meld. */
  lemma AwardCountSplit(p: Problem, x: YakuId)
    ensures (if AppliedHan(x, p.isMenzen).Some? then MeldsGiving(p.mentsu, x, p.seatWind, p.roundWind) else 0)
            + (if AwardOf(p)(x) && AppliedHan(x, p.isMenzen).Some? && exists k :: 0 <= k < STEP_COUNT && StepAt(k) == x then 1 else 0)
            == if AppliedHan(x, p.isMenzen).Some? then AwardCount(p, x) else 0
  {
    assert AwardOf(p)(x) == Awarded(p, x);
    if x in VALUE_HONORS {
      NoStep(x);
    } else {
      MeldsGivingOther(p.mentsu, x, p.seatWind, p.roundWind);
      if x in {Chiitoitsu, DoubleRiichi} {
        assert !Awarded(p, x);
      } else {
        StepOf(x);
      }
    }
  }

  /** The multiplicity theorem for the standard branch: a yaku the table
      prices on this hand has as many entries as it is awarded, any other
      yaku none. */
  lemma StandardYakuCount(p: Problem, x: YakuId)
    ensures Count(StandardYakuList(p), x) ==
              if AppliedHan(x, p.isMenzen).Some? then AwardCount(p, x) else 0
  {
    StandardCountParts(p, x);
    AwardCountSplit(p, x);
  }

  /** The standard list follows the check order. */
  lemma StandardYakuOrder(p: Problem)
    ensures InCheckOrder(StandardYakuList(p))
  {
    StagesOrder(AwardOf(p), p, 0, YAKUHAI_AFTER, STEP_COUNT);
  }

  /** The three stages keep the check order for any condition on the steps,
      so long as the value honors sit between the two ranges. */
  lemma StagesOrder(award: YakuId -> bool, p: Problem, lo: nat, mid: nat, hi: nat)
    requires lo <= mid <= hi <= STEP_COUNT
    requires lo < mid ==> StepRank(mid - 1) <= 6
    requires mid < hi ==> 6 <= StepRank(mid)
    ensures var mz := p.isMenzen;
            InCheckOrder(RunSteps(CheckYakuhai(RunSteps([], award, mz, lo, mid), p.mentsu, p), award, mz, mid, hi))
  {
    var mz := p.isMenzen;
    var early := RunSteps([], award, mz, lo, mid);
    RunStepsOrder([], award, mz, lo, mid, 0);
    assert RanksAtMost(early, 6);
    CheckYakuhaiOrder(early, p.mentsu, p);
    RunStepsOrder(CheckYakuhai(early, p.mentsu, p), award, mz, mid, hi, 6);
  }

  // ---------------------------------------------------------------------------
  // Dora

  /** The dora an indicator points at: the next tile of its suit, 9 wrapping
      to 1, the winds cycling 1..4 and the dragons cycling 5..7. */
  function GetDoraFromIndicator(indicator: Tile): (t: Tile)
    ensures t.suit == indicator.suit && t.honorType.None?
    ensures ValidTile(indicator) ==> ValidTile(t) && !IsSameTile(t, indicator)
    ensures ValidTile(indicator) && indicator.suit == Honor ==> (t.value <= 4 <==> indicator.value <= 4)
  {
    if indicator.suit == Honor then
      if indicator.value <= 4 then
        Tile(Honor, if indicator.value == 4 then 1 else indicator.value + 1, None)
      else
        Tile(Honor, if indicator.value == 7 then 5 else indicator.value + 1, None)
    else
      Tile(indicator.suit, if indicator.value == 9 then 1 else indicator.value + 1, None)
  }

  /** The indicator that points at a given dora. */
  function DoraIndicatorFor(dora: Tile): Tile
  {
    if dora.suit == Honor then
      if dora.value <= 4 then
        Tile(Honor, if dora.value == 1 then 4 else dora.value - 1, None)
      else
        Tile(Honor, if dora.value == 5 then 7 else dora.value - 1, None)
    else
      Tile(dora.suit, if dora.value == 1 then 9 else dora.value - 1, None)
  }

  /** On valid tiles the successor is a bijection: every tile is pointed at
      by exactly one indicator, `DoraIndicatorFor` of it. */
  lemma DoraIndicatorUnique(indicator: Tile, dora: Tile)
    requires ValidTile(indicator) && ValidTile(dora)
    ensures IsSameTile(GetDoraFromIndicator(indicator), dora) <==> IsSameTile(indicator, DoraIndicatorFor(dora))
    ensures IsSameTile(GetDoraFromIndicator(DoraIndicatorFor(dora)), dora)
    ensures IsSameTile(DoraIndicatorFor(GetDoraFromIndicator(indicator)), indicator)
  {
  }

  /** The dora reached after `n` steps from `t`. */
  function DoraAfter(t: Tile, n: nat): Tile
    decreases n
  {
    if n == 0 then t else DoraAfter(GetDoraFromIndicator(t), n - 1)
  }

  /** The first value and the length of the cycle a tile belongs to. */
  function CycleStart(t: Tile): int
  {
    if t.suit == Honor && t.value > 4 then 5 else 1
  }

  function CyclePeriod(t: Tile): nat
  {
    if t.suit != Honor then 9 else if t.value <= 4 then 4 else 3
  }

  lemma DoraStep(t: Tile)
    requires ValidTile(t)
    ensures var u := GetDoraFromIndicator(t);
            && CycleStart(u) == CycleStart(t) && CyclePeriod(u) == CyclePeriod(t)
            && u.value - CycleStart(t) == (t.value - CycleStart(t) + 1) % CyclePeriod(t)
  {
  }

  lemma {:induction false} MulAtLeast(c: nat, period: nat)
    requires c >= 1
    ensures c * period >= period
  {
    if c > 1 {
      MulAtLeast(c - 1, period);
      assert c * period == (c - 1) * period + period;
    }
  }

  lemma ModUnique(y: int, a: int, b: int, period: nat)
    requires period > 0 && 0 <= b < period && y == a * period + b
    ensures y % period == b
  {
    var k := y / period;
    var d := a - k;
    assert y == k * period + y % period;
    assert d * period == a * period - k * period;
    if d > 0 {
      MulAtLeast(d, period);
    } else if d < 0 {
      assert (-d) * period == -(d * period);
      MulAtLeast(-d, period);
    }
  }

  lemma ModStep(a: int, n: nat, period: nat)
    requires period > 0
    ensures ((a + 1) % period + n) % period == (a + 1 + n) % period
  {
    var r := (a + 1) % period;
    var q := (a + 1) / period;
    var y := r + n;
    var s := y / period;
    assert a + 1 == q * period + r;
    assert y == s * period + y % period;
    assert a + 1 + n == (q + s) * period + y % period by {
      assert (q + s) * period == q * period + s * period;
    }
    ModUnique(a + 1 + n, q + s, y % period, period);
  }

  /** Closed form of repeated succession: `n` steps advance the value by `n`
      around the tile's own cycle, and the suit never changes. */
  lemma {:induction false} DoraAfterClosedForm(t: Tile, n: nat)
    requires ValidTile(t)
    ensures DoraAfter(t, n).suit == t.suit
    ensures DoraAfter(t, n).value == CycleStart(t) + (t.value - CycleStart(t) + n) % CyclePeriod(t)
    decreases n
  {
    if n > 0 {
      var u := GetDoraFromIndicator(t);
      DoraStep(t);
      DoraAfterClosedForm(u, n - 1);
      ModStep(t.value - CycleStart(t), n - 1, CyclePeriod(t));
    }
  }

  /** Each suit cycles in nine steps, the winds in four and the dragons in
      three. */
  lemma DoraCycle(t: Tile)
    requires ValidTile(t)
    ensures IsSameTile(DoraAfter(t, CyclePeriod(t)), t)
  {
    DoraAfterClosedForm(t, CyclePeriod(t));
  }

  /** The number of tiles the same as `target`. */
  function CountSame(tiles: seq<Tile>, target: Tile): (r: nat)
    ensures r <= |tiles|
    ensures r == 0 <==> forall t :: t in tiles ==> !IsSameTile(t, target)
  {
    if tiles == [] then 0
    else (if IsSameTile(tiles[0], target) then 1 else 0) + CountSame(tiles[1..], target)
  }

  /** Dora of a tile list: per indicator, the tiles the same as its dora. */
  function CountDoraIn(tiles: seq<Tile>, indicators: seq<Tile>): nat
  {
    if indicators == [] then 0
    else CountSame(tiles, GetDoraFromIndicator(indicators[0])) + CountDoraIn(tiles, indicators[1..])
  }

  lemma {:induction false} CountSameAppend(a: seq<Tile>, b: seq<Tile>, target: Tile)
    ensures CountSame(a + b, target) == CountSame(a, target) + CountSame(b, target)
  {
    if a != [] {
      assert (a + b)[1..] == a[1..] + b;
      CountSameAppend(a[1..], b, target);
    } else {
      assert a + b == b;
    }
  }

  /** Dora add up over the indicators and over the tiles. */
  lemma {:induction false} CountDoraAdditive(tiles: seq<Tile>, more: seq<Tile>, ind: seq<Tile>, moreInd: seq<Tile>)
    ensures CountDoraIn(tiles, ind + moreInd) == CountDoraIn(tiles, ind) + CountDoraIn(tiles, moreInd)
    ensures CountDoraIn(tiles + more, ind) == CountDoraIn(tiles, ind) + CountDoraIn(more, ind)
  {
    if ind != [] {
      assert (ind + moreInd)[1..] == ind[1..] + moreInd;
      CountSameAppend(tiles, more, GetDoraFromIndicator(ind[0]));
      CountDoraAdditive(tiles, more, ind[1..], moreInd);
    } else {
      assert ind + moreInd == moreInd;
    }
  }

  /** No tile can be dora more often than there are indicators. */
  lemma {:induction false} CountDoraBound(tiles: seq<Tile>, ind: seq<Tile>)
    ensures CountDoraIn(tiles, ind) <= |tiles| * |ind|
  {
    if ind != [] {
      CountDoraBound(tiles, ind[1..]);
      assert |tiles| * |ind| == |tiles| + |tiles| * |ind[1..]|;
    }
  }

  function CountDora(p: Problem): nat
  {
    CountDoraIn(GetAllTiles(p), p.doraIndicators)
  }

  function Flatten(pairs: seq<seq<Tile>>): seq<Tile>
  {
    if pairs == [] then [] else pairs[0] + Flatten(pairs[1..])
  }

  /** Seven-pairs dora are counted over the listed pairs only, and are zero
      when the hand carries no list. */
  function CountDoraForChiitoitsu(p: Problem): nat
    requires IsChiitoitsuProblem(p)
  {
    match p.shape.toitsu
    case None => 0
    case Some(pairs) => CountDoraIn(Flatten(pairs), p.doraIndicators)
  }

  // ---------------------------------------------------------------------------
  // The calculator

  /** Seven pairs always takes the closed values and always scores riichi. */
  function SevenPairsYakuList(p: Problem): (r: seq<JudgedYaku>)
    ensures r == [JudgedYaku(Chiitoitsu, 2), JudgedYaku(Riichi, 1)]
                 + (if p.winType == Tsumo then [JudgedYaku(MenzenTsumo, 1)] else [])
    ensures Priced(r, true)
  {
    ClosedHanOfSevenPairsYaku();
    var l1 := AddYaku([], Chiitoitsu, true);
    var l2 := AddYaku(l1, Riichi, true);
    if p.winType == Tsumo then AddYaku(l2, MenzenTsumo, true) else l2
  }

  function CalculateYaku(p: Problem): (r: YakuResult)
    ensures IsChiitoitsuProblem(p) ==>
              && r.yakuList == SevenPairsYakuList(p)
              && r.doraCount == CountDoraForChiitoitsu(p)
    ensures !IsChiitoitsuProblem(p) ==>
              && (forall x :: Has(r.yakuList, x) <==> Awarded(p, x) && AppliedHan(x, p.isMenzen).Some?)
              && (forall x :: Count(r.yakuList, x) == if AppliedHan(x, p.isMenzen).Some? then AwardCount(p, x) else 0)
              && InCheckOrder(r.yakuList)
              && Priced(r.yakuList, p.isMenzen)
              && r.doraCount == CountDora(p)
    ensures r.totalHan == SumHan(r.yakuList) + r.doraCount
    ensures r.totalHan >= |r.yakuList| + r.doraCount
  {
    if IsChiitoitsuProblem(p) then
      var list := SevenPairsYakuList(p);
      SumHanAtLeastLength(list, true);
      var dora := CountDoraForChiitoitsu(p);
      YakuResult(list, SumHan(list) + dora, dora)
    else
      var list := StandardYakuList(p);
      assert forall x :: Has(list, x) <==> Awarded(p, x) && AppliedHan(x, p.isMenzen).Some? by {
        forall x ensures Has(list, x) <==> Awarded(p, x) && AppliedHan(x, p.isMenzen).Some? {
          StandardYakuMembership(p, x);
        }
      }
      assert forall x :: Count(list, x) == if AppliedHan(x, p.isMenzen).Some? then AwardCount(p, x) else 0 by {
        forall x ensures Count(list, x) == if AppliedHan(x, p.isMenzen).Some? then AwardCount(p, x) else 0 {
          StandardYakuCount(p, x);
        }
      }
      StandardYakuOrder(p);
      SumHanAtLeastLength(list, p.isMenzen);
      var dora := CountDora(p);
      YakuResult(list, SumHan(list) + dora, dora)
  }

  /** The han of the table's yaku from position `k` on, each taken as often
      as `count` says, at its value on a hand this open or closed. */
  function HanSum(count: YakuId -> nat, isMenzen: bool, k: nat): nat
    decreases TABLE_SIZE - k
  {
    if k >= TABLE_SIZE then 0 else HanAt(count, isMenzen, k) + HanSum(count, isMenzen, k + 1)
  }

  function HanAt(count: YakuId -> nat, isMenzen: bool, k: nat): nat
    requires k < TABLE_SIZE
  {
    match AppliedHan(IdAt(k), isMenzen)
    case Some(h) => count(IdAt(k)) * h
    case None => 0
  }

  /** Two counts that agree on the priced yaku give the same han. */
  lemma {:induction false} HanSumAgree(f: YakuId -> nat, g: YakuId -> nat, isMenzen: bool, k: nat)
    requires forall x :: AppliedHan(x, isMenzen).Some? ==> f(x) == g(x)
    ensures HanSum(f, isMenzen, k) == HanSum(g, isMenzen, k)
    decreases TABLE_SIZE - k
  {
    if k < TABLE_SIZE {
      HanSumAgree(f, g, isMenzen, k + 1);
    }
  }

  function CountOf(list: seq<JudgedYaku>): YakuId -> nat
  {
    x => Count(list, x)
  }

  /** Appending an entry adds its yaku's value once, at the yaku's table
      position. */
  lemma {:induction false} HanSumSnoc(list: seq<JudgedYaku>, e: JudgedYaku, isMenzen: bool, k: nat)
    requires AppliedHan(e.id, isMenzen) == Some(e.han)
    ensures HanSum(CountOf(list + [e]), isMenzen, k) ==
              HanSum(CountOf(list), isMenzen, k) + (if IndexOf(e.id) >= k then e.han else 0)
    decreases TABLE_SIZE - k
  {
    if k < TABLE_SIZE {
      HanSumSnoc(list, e, isMenzen, k + 1);
      HanAtSnoc(list, e, isMenzen, k);
    }
  }

  lemma HanAtSnoc(list: seq<JudgedYaku>, e: JudgedYaku, isMenzen: bool, k: nat)
    requires k < TABLE_SIZE && AppliedHan(e.id, isMenzen) == Some(e.han)
    ensures HanAt(CountOf(list + [e]), isMenzen, k) ==
              HanAt(CountOf(list), isMenzen, k) + (if IndexOf(e.id) == k then e.han else 0)
  {
    IndexOfIdAt(k);
    CountSnoc(list, e, IdAt(k));
    var c := Count(list, IdAt(k));
    if e.id == IdAt(k) {
      assert (c + 1) * e.han == c * e.han + e.han;
    }
  }

  lemma {:induction false} SumHanSnoc(list: seq<JudgedYaku>, e: JudgedYaku)
    ensures SumHan(list + [e]) == SumHan(list) + e.han
  {
    if list == [] {
      assert ([] + [e])[1..] == [];
    } else {
      assert (list + [e])[1..] == list[1..] + [e];
      SumHanSnoc(list[1..], e);
    }
  }

  /** A priced list is worth the han of its yaku, each counted as often as
      it appears. */
  lemma {:induction false} SumHanByCount(list: seq<JudgedYaku>, isMenzen: bool)
    requires Priced(list, isMenzen)
    ensures SumHan(list) == HanSum(CountOf(list), isMenzen, 0)
    decreases |list|
  {
    if list == [] {
      HanSumAgree(CountOf(list), x => 0, isMenzen, 0);
      HanSumZero(isMenzen, 0);
    } else {
      var init := list[..|list| - 1];
      var e := list[|list| - 1];
      assert list == init + [e];
      assert AppliedHan(e.id, isMenzen) == Some(e.han);
      SumHanByCount(init, isMenzen);
      SumHanSnoc(init, e);
      HanSumSnoc(init, e, isMenzen, 0);
    }
  }

  lemma {:induction false} HanSumZero(isMenzen: bool, k: nat)
    ensures HanSum(x => 0, isMenzen, k) == 0
    decreases TABLE_SIZE - k
  {
    if k < TABLE_SIZE {
      HanSumZero(isMenzen, k + 1);
    }
  }

  /** The total of a standard hand is fixed by what it is awarded: the han
      of every awarded yaku, a value honor once per earning meld, plus the
      dora. */
  lemma StandardTotalHan(p: Problem)
    requires !IsChiitoitsuProblem(p)
    ensures CalculateYaku(p).totalHan == HanSum(x => AwardCount(p, x), p.isMenzen, 0) + CountDora(p)
  {
    var r := CalculateYaku(p);
    SumHanByCount(r.yakuList, p.isMenzen);
    HanSumAgree(CountOf(r.yakuList), x => AwardCount(p, x), p.isMenzen, 0);
  }

  /** The same, for awards given as a function. */
  lemma TotalFromAwards(p: Problem, f: YakuId -> nat)
    requires !IsChiitoitsuProblem(p)
    requires forall x :: AwardCount(p, x) == f(x)
    ensures CalculateYaku(p).totalHan == HanSum(f, p.isMenzen, 0) + CountDora(p)
  {
    StandardTotalHan(p);
    HanSumAgree(x => AwardCount(p, x), f, p.isMenzen, 0);
  }

  // ---------------------------------------------------------------------------
  // Properties of the list

  /** Concealed-only yaku never appear on an open hand. */
  lemma OpenHandHasNoConcealedOnlyYaku(p: Problem, x: YakuId)
    requires !IsChiitoitsuProblem(p) && !p.isMenzen && x in CONCEALED_ONLY
    ensures !Has(CalculateYaku(p).yakuList, x)
  {
    AppliedHanFacts(x);
  }

  /** Ryanpeikou takes the place of iipeikou. */
  lemma IipeikouExcludesRyanpeikou(p: Problem)
    requires !IsChiitoitsuProblem(p)
    ensures var list := CalculateYaku(p).yakuList;
            !(Has(list, Iipeikou) && Has(list, Ryanpeikou))
  {
  }

  /** Half flush and full flush never appear together. */
  lemma HonitsuExcludesChinitsu(p: Problem)
    requires !IsChiitoitsuProblem(p)
    ensures var list := CalculateYaku(p).yakuList;
            !(Has(list, Honitsu) && Has(list, Chinitsu))
  {
    var list := CalculateYaku(p).yakuList;
    HalfFlushNeedsHonor(p);
    assert Has(list, Honitsu) ==> Awarded(p, Honitsu);
    assert Has(list, Chinitsu) ==> Awarded(p, Chinitsu);
  }

  /** Chanta and junchan never appear together. */
  lemma ChantaExcludesJunchan(p: Problem)
    requires !IsChiitoitsuProblem(p)
    ensures var list := CalculateYaku(p).yakuList;
            !(Has(list, Chanta) && Has(list, Junchan))
  {
    var list := CalculateYaku(p).yakuList;
    ChantaNeedsHonor(p);
    assert Has(list, Chanta) ==> Awarded(p, Chanta);
    assert Has(list, Junchan) ==> Awarded(p, Junchan);
  }

  /** Half flush needs an honor; full flush has none; so the two never
      hold together. */
  lemma HalfFlushNeedsHonor(p: Problem)
    ensures CheckHonitsu(p) ==> exists t :: t in GetAllTiles(p) && t.suit == Honor
    ensures CheckChinitsu(p) ==> forall t :: t in GetAllTiles(p) ==> t.suit != Honor
    ensures !(CheckHonitsu(p) && CheckChinitsu(p))
  {
  }

  /** Chanta needs an honor pair or an honor triplet, so an honor tile in
      the hand; junchan has neither an honor pair nor an honor triplet or
      quad; so the two never hold together. */
  lemma ChantaNeedsHonor(p: Problem)
    ensures CheckChanta(p) ==> exists t :: t in GetAllTiles(p) && t.suit == Honor
    ensures CheckJunchan(p) ==>
              && p.jantou.first.suit != Honor
              && forall i :: 0 <= i < |p.mentsu| && p.mentsu[i].kind != Shuntsu ==> p.mentsu[i].tiles[0].suit != Honor
    ensures !(CheckChanta(p) && CheckJunchan(p))
  {
    if CheckChanta(p) {
      if p.jantou.first.suit != Honor {
        var i :| 0 <= i < |p.mentsu| && p.mentsu[i].kind != Shuntsu && p.mentsu[i].tiles[0].suit == Honor;
        assert p.mentsu[i] in p.mentsu;
        assert p.mentsu[i].tiles[0] in GetAllTiles(p);
      }
    }
  }

  /** A double-wind triplet scores both the round wind and the seat wind. */
  lemma DoubleWindTripletScoresBoth(p: Problem, i: nat)
    requires !IsChiitoitsuProblem(p) && i < |p.mentsu|
    requires IsHonorTriplet(p.mentsu[i])
    requires p.mentsu[i].tiles[0].value == p.seatWind == p.roundWind
    ensures Has(CalculateYaku(p).yakuList, YakuhaiBakaze)
    ensures Has(CalculateYaku(p).yakuList, YakuhaiJikaze)
  {
    AppliedHanFacts(YakuhaiBakaze);
    AppliedHanFacts(YakuhaiJikaze);
    assert GivesYakuhai(p.mentsu[i], YakuhaiBakaze, p.seatWind, p.roundWind);
    assert GivesYakuhai(p.mentsu[i], YakuhaiJikaze, p.seatWind, p.roundWind);
  }
}
