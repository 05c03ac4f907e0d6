/** Shapes shared by the scoring engine: tiles, melds, the pair, a winning
    hand (`Problem`) and the records the calculators return. */
module Types {

  datatype Option<+T> = None | Some(value: T)

  datatype Suit = Man | Pin | Sou | Honor

  /** The honor kinds; which value maps to which kind is fixed by
      `Tiles.HonorOfValue`. */
  datatype HonorType = Ton | Nan | Sha | Pei | Haku | Hatsu | Chun

  /** A tile. `honorType` is only filled in by `Tiles.CreateTile`; tiles built
      elsewhere (the dora successor, the fallback hand) leave it empty. */
  datatype Tile = Tile(suit: Suit, value: int, honorType: Option<HonorType>)

  datatype MentsuType = Shuntsu | Koutsu | Kantsu

  datatype Mentsu = Mentsu(kind: MentsuType, tiles: seq<Tile>, isOpen: bool)

  /** Number of tiles a meld of the given kind holds. */
  function TileCount(kind: MentsuType): nat
  {
    if kind == Kantsu then 4 else 3
  }

  /** A meld with as many tiles as its kind needs: the calculators read
      `tiles[0]` of every meld and the generator reads `tiles[0..2]` of every
      sequence. Values and suits are not constrained. */
  type Meld = m: Mentsu | |m.tiles| == TileCount(m.kind)
    witness Mentsu(Shuntsu, [Tile(Man, 1, None), Tile(Man, 2, None), Tile(Man, 3, None)], false)

  /** The pair: exactly two tiles. */
  datatype Jantou = Jantou(first: Tile, second: Tile) {
    function Tiles(): seq<Tile>
    {
      [first, second]
    }
  }

  datatype WaitType = Ryanmen | Kanchan | Penchan | Shanpon | Tanki

  datatype WinType = Tsumo | Ron

  datatype PlayerType = Oya | Ko

  datatype Difficulty = Beginner | Intermediate | Advanced

  /** Standard hands carry their melds and pair only. A seven-pairs hand is
      flagged and may carry its list of pairs; a flagged hand without the list
      is legal input. */
  datatype HandShape = Standard | SevenPairs(toitsu: Option<seq<seq<Tile>>>)

  /** A winning hand. A seven-pairs hand still carries `mentsu` and `jantou`
      (the generator sets them to [] and the first pair). */
  datatype Problem = Problem(
    mentsu: seq<Meld>,
    jantou: Jantou,
    winType: WinType,
    playerType: PlayerType,
    waitType: WaitType,
    winningTile: Tile,
    han: nat,
    isMenzen: bool,
    seatWind: int,
    roundWind: int,
    doraIndicators: seq<Tile>,
    shape: HandShape)

  /** The type guard that tells the two hand shapes apart. */
  predicate IsChiitoitsuProblem(p: Problem)
  {
    p.shape.SevenPairs?
  }

  /** Tile values are 1..9 for suited tiles and 1..7 for honors. */
  predicate ValidTile(t: Tile)
  {
    1 <= t.value && t.value <= (if t.suit == Honor then 7 else 9)
  }

  /** The documented ranges of a problem's context fields: seat wind 1..4,
      round wind 1..2 (east or south) and one to three dora indicators. */
  predicate ValidContext(p: Problem)
  {
    && 1 <= p.seatWind <= 4
    && 1 <= p.roundWind <= 2
    && 1 <= |p.doraIndicators| <= 3
  }

  /** One line of the fu breakdown: a meld and the fu it earns. */
  datatype MentsuFu = MentsuFu(mentsu: Meld, fu: nat)

  datatype FuBreakdown = FuBreakdown(
    base: nat,
    menzenRon: nat,
    tsumo: nat,
    mentsuFu: seq<MentsuFu>,
    jantouFu: nat,
    waitFu: nat,
    total: nat)

  /** The limit tiers; the source stores their Japanese names as strings. */
  datatype LimitTier = Mangan | Haneman | Baiman | Sanbaiman | Yakuman

  datatype ScoreResult = ScoreResult(
    fu: nat,
    han: nat,
    basePoints: nat,
    ronPoints: Option<nat>,
    tsumoPointsKo: Option<nat>,
    tsumoPointsOya: Option<nat>,
    limitName: Option<LimitTier>)
}
