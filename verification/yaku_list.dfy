/** The yaku master table: for every yaku its concealed han and its open han
    (`None` when the yaku is concealed-only). Names and descriptions, which are
    display text, are not modelled. */
module YakuList {
  import opened Types

  datatype YakuId =
    | Riichi | MenzenTsumo | Tanyao | Pinfu | Iipeikou
    | YakuhaiHaku | YakuhaiHatsu | YakuhaiChun | YakuhaiBakaze | YakuhaiJikaze
    | SanshokuDoujun | Ittsu | Chanta | Toitoi | Sanankou | SanshokuDoukou
    | Sankantsu | Honroutou | Shousangen | Chiitoitsu | DoubleRiichi
    | Honitsu | Junchan | Ryanpeikou | Chinitsu

  /** The identifier string the source uses for each yaku. */
  function IdName(id: YakuId): string
  {
    match id
    case Riichi => "riichi"
    case MenzenTsumo => "menzen_tsumo"
    case Tanyao => "tanyao"
    case Pinfu => "pinfu"
    case Iipeikou => "iipeikou"
    case YakuhaiHaku => "yakuhai_haku"
    case YakuhaiHatsu => "yakuhai_hatsu"
    case YakuhaiChun => "yakuhai_chun"
    case YakuhaiBakaze => "yakuhai_bakaze"
    case YakuhaiJikaze => "yakuhai_jikaze"
    case SanshokuDoujun => "sanshoku_doujun"
    case Ittsu => "ittsu"
    case Chanta => "chanta"
    case Toitoi => "toitoi"
    case Sanankou => "sanankou"
    case SanshokuDoukou => "sanshoku_doukou"
    case Sankantsu => "sankantsu"
    case Honroutou => "honroutou"
    case Shousangen => "shousangen"
    case Chiitoitsu => "chiitoitsu"
    case DoubleRiichi => "double_riichi"
    case Honitsu => "honitsu"
    case Junchan => "junchan"
    case Ryanpeikou => "ryanpeikou"
    case Chinitsu => "chinitsu"
  }

  datatype YakuDefinition = YakuDefinition(id: YakuId, han: nat, hanOpen: Option<nat>)

  /** The table entry of each yaku: its concealed han and its open han. */
  function Definition(id: YakuId): (d: YakuDefinition)
    ensures d.id == id
  {
    match id
    case Riichi => YakuDefinition(Riichi, 1, None)
    case MenzenTsumo => YakuDefinition(MenzenTsumo, 1, None)
    case Tanyao => YakuDefinition(Tanyao, 1, Some(1))
    case Pinfu => YakuDefinition(Pinfu, 1, None)
    case Iipeikou => YakuDefinition(Iipeikou, 1, None)
    case YakuhaiHaku => YakuDefinition(YakuhaiHaku, 1, Some(1))
    case YakuhaiHatsu => YakuDefinition(YakuhaiHatsu, 1, Some(1))
    case YakuhaiChun => YakuDefinition(YakuhaiChun, 1, Some(1))
    case YakuhaiBakaze => YakuDefinition(YakuhaiBakaze, 1, Some(1))
    case YakuhaiJikaze => YakuDefinition(YakuhaiJikaze, 1, Some(1))
    case SanshokuDoujun => YakuDefinition(SanshokuDoujun, 2, Some(1))
    case Ittsu => YakuDefinition(Ittsu, 2, Some(1))
    case Chanta => YakuDefinition(Chanta, 2, Some(1))
    case Toitoi => YakuDefinition(Toitoi, 2, Some(2))
    case Sanankou => YakuDefinition(Sanankou, 2, Some(2))
    case SanshokuDoukou => YakuDefinition(SanshokuDoukou, 2, Some(2))
    case Sankantsu => YakuDefinition(Sankantsu, 2, Some(2))
    case Honroutou => YakuDefinition(Honroutou, 2, Some(2))
    case Shousangen => YakuDefinition(Shousangen, 2, Some(2))
    case Chiitoitsu => YakuDefinition(Chiitoitsu, 2, None)
    case DoubleRiichi => YakuDefinition(DoubleRiichi, 2, None)
    case Honitsu => YakuDefinition(Honitsu, 3, Some(2))
    case Junchan => YakuDefinition(Junchan, 3, Some(2))
    case Ryanpeikou => YakuDefinition(Ryanpeikou, 3, None)
    case Chinitsu => YakuDefinition(Chinitsu, 6, Some(5))
  }

  /** The yaku in table order. */
  function IdAt(k: nat): YakuId
    requires k < TABLE_SIZE
  {
    match k
    case 0 => Riichi
    case 1 => MenzenTsumo
    case 2 => Tanyao
    case 3 => Pinfu
    case 4 => Iipeikou
    case 5 => YakuhaiHaku
    case 6 => YakuhaiHatsu
    case 7 => YakuhaiChun
    case 8 => YakuhaiBakaze
    case 9 => YakuhaiJikaze
    case 10 => SanshokuDoujun
    case 11 => Ittsu
    case 12 => Chanta
    case 13 => Toitoi
    case 14 => Sanankou
    case 15 => SanshokuDoukou
    case 16 => Sankantsu
    case 17 => Honroutou
    case 18 => Shousangen
    case 19 => Chiitoitsu
    case 20 => DoubleRiichi
    case 21 => Honitsu
    case 22 => Junchan
    case 23 => Ryanpeikou
    case _ => Chinitsu
  }

  const TABLE_SIZE: nat := 25

  /** The master table, in the source's order. */
  const YAKU_LIST: seq<YakuDefinition> := Table()

  function Table(): (t: seq<YakuDefinition>)
    ensures |t| == TABLE_SIZE
    ensures forall k :: 0 <= k < TABLE_SIZE ==> t[k] == Definition(IdAt(k))
  {
    seq(TABLE_SIZE, k requires 0 <= k < TABLE_SIZE => Definition(IdAt(k)))
  }

  /** The yaku that are only awarded to a concealed hand. */
  const CONCEALED_ONLY: set<YakuId> :=
    {Riichi, MenzenTsumo, Pinfu, Iipeikou, Chiitoitsu, DoubleRiichi, Ryanpeikou}

  /** The yaku worth one han less when the hand is open. */
  const REDUCED_WHEN_OPEN: set<YakuId> :=
    {SanshokuDoujun, Ittsu, Chanta, Honitsu, Junchan, Chinitsu}

  /** Every yaku has exactly one entry. */
  lemma TableIdsDistinct()
    ensures forall i, j :: 0 <= i < j < |YAKU_LIST| ==> YAKU_LIST[i].id != YAKU_LIST[j].id
    ensures |YAKU_LIST| == 25
  {
    forall i, j | 0 <= i < j < |YAKU_LIST|
      ensures YAKU_LIST[i].id != YAKU_LIST[j].id
    {
      IndexOfIdAt(i);
      IndexOfIdAt(j);
    }
  }

  /** Concealed-only entries are exactly the ones without an open han; no
      entry is worth more open than concealed; the entries that lose han when
      open lose exactly one; every value is at least one han. */
  lemma DefinitionHanFacts(id: YakuId)
    ensures var d := Definition(id);
            && (d.hanOpen.None? <==> id in CONCEALED_ONLY)
            && (d.hanOpen.Some? ==> 1 <= d.hanOpen.value <= d.han)
            && (d.hanOpen.Some? && d.hanOpen.value < d.han <==> id in REDUCED_WHEN_OPEN)
            && (id in REDUCED_WHEN_OPEN ==> d.hanOpen == Some(d.han - 1))
            && 1 <= d.han
  {
  }

  /** The same facts, entry by entry over the table. */
  lemma TableHanFacts()
    ensures forall k :: 0 <= k < |YAKU_LIST| ==>
              (YAKU_LIST[k].hanOpen.None? <==> YAKU_LIST[k].id in CONCEALED_ONLY)
    ensures forall k :: 0 <= k < |YAKU_LIST| && YAKU_LIST[k].hanOpen.Some? ==>
              YAKU_LIST[k].hanOpen.value <= YAKU_LIST[k].han
    ensures forall k :: 0 <= k < |YAKU_LIST| ==>
              (YAKU_LIST[k].hanOpen.Some? && YAKU_LIST[k].hanOpen.value < YAKU_LIST[k].han
               <==> YAKU_LIST[k].id in REDUCED_WHEN_OPEN)
    ensures forall k :: 0 <= k < |YAKU_LIST| && YAKU_LIST[k].id in REDUCED_WHEN_OPEN ==>
              YAKU_LIST[k].hanOpen == Some(YAKU_LIST[k].han - 1)
    ensures forall k :: 0 <= k < |YAKU_LIST| ==>
              1 <= YAKU_LIST[k].han && (YAKU_LIST[k].hanOpen.Some? ==> 1 <= YAKU_LIST[k].hanOpen.value)
  {
    forall k | 0 <= k < |YAKU_LIST|
      ensures YAKU_LIST[k] == Definition(YAKU_LIST[k].id)
    {
      DefinitionHanFacts(IdAt(k));
    }
  }

  /** The first entry of `list` with the given id. */
  function FindById(list: seq<YakuDefinition>, id: YakuId): (r: Option<YakuDefinition>)
    ensures r.Some? ==> r.value in list && r.value.id == id
    ensures r.None? <==> forall k :: 0 <= k < |list| ==> list[k].id != id
    ensures r.Some? && list != [] && list[0].id == id ==> r.value == list[0]
  {
    if list == [] then None
    else if list[0].id == id then Some(list[0])
    else FindById(list[1..], id)
  }

  /** The first entry of `list` whose identifier string is `name`. */
  function FindByName(list: seq<YakuDefinition>, name: string): (r: Option<YakuDefinition>)
    ensures r.Some? <==> exists k :: 0 <= k < |list| && IdName(list[k].id) == name
    ensures r.Some? ==> exists k :: 0 <= k < |list| && list[k] == r.value && IdName(r.value.id) == name
                                    && forall j :: 0 <= j < k ==> IdName(list[j].id) != name
  {
    if list == [] then None
    else if IdName(list[0].id) == name then Some(list[0])
    else
      var r := FindByName(list[1..], name);
      if r.Some? then
        var k :| 0 <= k < |list[1..]| && list[1..][k] == r.value && IdName(r.value.id) == name
                 && forall j :: 0 <= j < k ==> IdName(list[1..][j].id) != name;
        assert list[k + 1] == r.value;
        r
      else r
  }

  /** Looks a yaku up by its identifier string; `None` stands for the
      source's `undefined`. */
  function GetYakuById(name: string): (r: Option<YakuDefinition>)
    ensures r.Some? ==> r.value in YAKU_LIST && IdName(r.value.id) == name
    ensures r.None? <==> forall k :: 0 <= k < |YAKU_LIST| ==> IdName(YAKU_LIST[k].id) != name
  {
    FindByName(YAKU_LIST, name)
  }

  lemma IdNameInjective(a: YakuId, b: YakuId)
    ensures IdName(a) == IdName(b) ==> a == b
  {
  }

  /** Every yaku is found under its own name, and the entry found carries it. */
  lemma GetYakuByIdKnown(id: YakuId)
    ensures GetYakuById(IdName(id)).Some?
    ensures GetYakuById(IdName(id)).value.id == id
  {
    var k := IndexOf(id);
    assert IdName(YAKU_LIST[k].id) == IdName(id);
    var r := GetYakuById(IdName(id));
    IdNameInjective(r.value.id, id);
  }

  /** The position of a yaku's entry in the table: every yaku has one. */
  function IndexOf(id: YakuId): (k: nat)
    ensures k < |YAKU_LIST| && IdAt(k) == id && YAKU_LIST[k] == Definition(id)
  {
    match id
    case Riichi => 0
    case MenzenTsumo => 1
    case Tanyao => 2
    case Pinfu => 3
    case Iipeikou => 4
    case YakuhaiHaku => 5
    case YakuhaiHatsu => 6
    case YakuhaiChun => 7
    case YakuhaiBakaze => 8
    case YakuhaiJikaze => 9
    case SanshokuDoujun => 10
    case Ittsu => 11
    case Chanta => 12
    case Toitoi => 13
    case Sanankou => 14
    case SanshokuDoukou => 15
    case Sankantsu => 16
    case Honroutou => 17
    case Shousangen => 18
    case Chiitoitsu => 19
    case DoubleRiichi => 20
    case Honitsu => 21
    case Junchan => 22
    case Ryanpeikou => 23
    case Chinitsu => 24
  }

  /** `IndexOf` undoes `IdAt`: no two positions hold the same yaku. */
  lemma IndexOfIdAt(k: nat)
    requires k < TABLE_SIZE
    ensures IndexOf(IdAt(k)) == k
  {
  }

  /** Looking an id up in the table gives that id's one entry. */
  lemma FindByIdIsEntry(id: YakuId, k: nat)
    requires k < |YAKU_LIST| && YAKU_LIST[k].id == id
    ensures FindById(YAKU_LIST, id) == Some(YAKU_LIST[k])
  {
    TableIdsDistinct();
    var r := FindById(YAKU_LIST, id);
    var j :| 0 <= j < |YAKU_LIST| && YAKU_LIST[j] == r.value;
  }

  /** The entries of `list` with the given han, in list order. */
  function WithHan(list: seq<YakuDefinition>, han: nat): seq<YakuDefinition>
  {
    if list == [] then []
    else (if list[0].han == han then [list[0]] else []) + WithHan(list[1..], han)
  }

  lemma WithHanSnoc(list: seq<YakuDefinition>, y: YakuDefinition, han: nat)
    ensures WithHan(list + [y], han) == WithHan(list, han) + (if y.han == han then [y] else [])
  {
    if list != [] {
      assert (list + [y])[1..] == list[1..] + [y];
      WithHanSnoc(list[1..], y, han);
    } else {
      assert [y][1..] == [];
    }
  }

  /** Groups the table by concealed han: one key per han that occurs, holding
      that han's entries in table order. */
  method GetYakuByHan() returns (grouped: map<nat, seq<YakuDefinition>>)
    ensures forall h :: h in grouped <==> exists k :: 0 <= k < |YAKU_LIST| && YAKU_LIST[k].han == h
    ensures forall h :: h in grouped ==> grouped[h] == WithHan(YAKU_LIST, h)
  {
    grouped := map[];
    var i := 0;
    while i < |YAKU_LIST|
      invariant 0 <= i <= |YAKU_LIST|
      invariant forall h :: h in grouped <==> exists k :: 0 <= k < i && YAKU_LIST[k].han == h
      invariant forall h :: h in grouped ==> grouped[h] == WithHan(YAKU_LIST[..i], h)
    {
      var yaku := YAKU_LIST[i];
      var han := yaku.han;
      if han !in grouped {
        grouped := grouped[han := []];
      }
      grouped := grouped[han := grouped[han] + [yaku]];
      assert YAKU_LIST[..i + 1] == YAKU_LIST[..i] + [yaku];
      forall h | h in grouped
        ensures grouped[h] == WithHan(YAKU_LIST[..i + 1], h)
      {
        WithHanSnoc(YAKU_LIST[..i], yaku, h);
        if h != han {
          assert WithHan(YAKU_LIST[..i], h) == WithHan(YAKU_LIST[..i + 1], h);
        } else if exists k :: 0 <= k < i && YAKU_LIST[k].han == h {
        } else {
          assert WithHan(YAKU_LIST[..i], h) == [] by { WithHanEmpty(YAKU_LIST[..i], h); }
        }
      }
      i := i + 1;
    }
    assert YAKU_LIST[..i] == YAKU_LIST;
  }

  lemma WithHanEmpty(list: seq<YakuDefinition>, han: nat)
    requires forall k :: 0 <= k < |list| ==> list[k].han != han
    ensures WithHan(list, han) == []
  {
  }

  /** Each entry lands in exactly one group, the one keyed by its own han. */
  lemma {:induction false} WithHanPartition(list: seq<YakuDefinition>, y: YakuDefinition, h: nat)
    ensures y in WithHan(list, h) <==> y in list && y.han == h
  {
    if list != [] {
      WithHanPartition(list[1..], y, h);
      assert list == [list[0]] + list[1..];
    }
  }
}
