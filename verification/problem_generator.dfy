/** The problem generator with its randomness made explicit: every
    `Math.random()` the generator consults is a pre-drawn real in [0, 1),
    every `randomInt` or `randomChoice` a pre-drawn index, and every shuffle
    a list of pre-drawn swap positions. */
module ProblemGenerator {
  import opened Types
  import opened Tiles
  import opened YakuList
  import opened FuCalculator
  import opened YakuCalculator
  import opened ScoreCalculator
  import opened TileCounter

  // ---------------------------------------------------------------------------
  // Random draws

  /** `randomBool(p)`: true when the draw falls below `p`. */
  predicate RandomBool(draw: real, probability: real)
  {
    draw < probability
  }

  /** `randomInt(min, max)` with a pre-drawn index. */
  function RandomInt(min: int, max: int, pick: nat): (r: int)
    requires min <= max
    ensures min <= r <= max
  {
    min + pick % (max - min + 1)
  }

  /** Every value of the range is the outcome of some draw. */
  lemma RandomIntCovers(min: int, max: int, v: int)
    requires min <= v <= max
    ensures RandomInt(min, max, (v - min) as nat) == v
  {
  }

  /** `randomNumberSuit()` with a pre-drawn index. */
  function NumberSuit(pick: nat): (s: Suit)
    ensures s != Honor
  {
    match pick % 3
    case 0 => Man
    case 1 => Pin
    case _ => Sou
  }

  lemma NumberSuitCovers(s: Suit)
    requires s != Honor
    ensures NumberSuit(SuitOrder(s)) == s
  {
  }

  /** The draws of one tile: a suit index and a value index. */
  datatype TileDraw = TileDraw(suitPick: nat, valuePick: nat)

  /** An honor 1..7, or a number tile 1..9 of a drawn suit. */
  function DrawnTile(useHonor: bool, d: TileDraw): (t: Tile)
    ensures ValidTile(t)
    ensures t.suit == Honor <==> useHonor
    ensures t == CreateTile(t.suit, t.value)
  {
    if useHonor then CreateTile(Honor, RandomInt(1, 7, d.valuePick))
    else CreateTile(NumberSuit(d.suitPick), RandomInt(1, 9, d.valuePick))
  }

  /** Every valid tile kind can be drawn. */
  lemma DrawnTileCovers(t: Tile)
    requires ValidTile(t)
    ensures DrawnTile(t.suit == Honor, TileDraw(SuitOrder(t.suit), (t.value - 1) as nat)) == CreateTile(t.suit, t.value)
  {
  }

  /** The meld and pair builders give up after this many tries. */
  const MELD_TRIES: nat := 10

  type Tries = s: seq<TileDraw> | |s| == MELD_TRIES
    witness seq(MELD_TRIES, _ => TileDraw(0, 0))

  /** The index of the first element that satisfies `p`. */
  function FirstWhere<T>(s: seq<T>, p: T -> bool): (r: Option<nat>)
    ensures r.None? <==> forall k :: 0 <= k < |s| ==> !p(s[k])
    ensures r.Some? ==> r.value < |s| && p(s[r.value]) && forall k :: 0 <= k < r.value ==> !p(s[k])
  {
    if s == [] then None
    else if p(s[0]) then Some(0)
    else
      match FirstWhere(s[1..], p)
      case Some(k) => Some(k + 1)
      case None => None
  }

  // ---------------------------------------------------------------------------
  // Difficulty settings

  /** The per-difficulty rates; `maxHan` is carried but never read. */
  datatype Settings = Settings(kantsuRate: real, honorRate: real, openRate: real, maxHan: nat)

  function SettingsOf(d: Difficulty): Settings
  {
    match d
    case Beginner => Settings(0.0, 0.1, 0.3, 4)
    case Intermediate => Settings(0.15, 0.25, 0.4, 6)
    case Advanced => Settings(0.25, 0.35, 0.5, 8)
  }

  // ---------------------------------------------------------------------------
  // Melds and the pair

  /** The sequence one try draws: a number suit and a start value 1..7. */
  function SequenceOf(d: TileDraw, isOpen: bool): Meld
  {
    var suit := NumberSuit(d.suitPick);
    var start := RandomInt(1, 7, d.valuePick);
    Mentsu(Shuntsu, [CreateTile(suit, start), CreateTile(suit, start + 1), CreateTile(suit, start + 2)], isOpen)
  }

  /** A proper sequence: three consecutive tiles 1..9 of one number suit. */
  predicate IsRun(m: Mentsu)
  {
    && m.kind == Shuntsu
    && |m.tiles| == 3
    && m.tiles[0].suit != Honor
    && 1 <= m.tiles[0].value <= 7
    && (forall i :: 0 <= i < 3 ==>
          m.tiles[i] == CreateTile(m.tiles[0].suit, m.tiles[0].value + i))
  }

  /** One more copy of each tile fits. */
  predicate FitsOnce(c: Counter, ts: seq<Tile>)
  {
    forall i :: 0 <= i < |ts| ==> CanUse(c, ts[i], 1)
  }

  /** A sequence's three tiles are distinct kinds, so recording them keeps a
      counter within four when each fits. */
  lemma RunKeepsLimit(c: Counter, r: Counter, m: Meld)
    requires IsRun(m) && FitsOnce(c, m.tiles) && WithinLimit(c) && Adds(c, r, m.tiles)
    ensures WithinLimit(r)
  {
    var ts := m.tiles;
    forall u | Occurrences(ts, u) > 0
      ensures GetCount(c, u) + Occurrences(ts, u) <= COPIES
    {
      var t1, t2 := ts[1..], ts[1..][1..];
      assert t1[0] == ts[1] && t2[0] == ts[2] && t2[1..] == [];
      assert Occurrences(t2, u) == (if IsSameTile(ts[2], u) then 1 else 0);
      assert Occurrences(t1, u) == (if IsSameTile(ts[1], u) then 1 else 0) + Occurrences(t2, u);
      var i :| 0 <= i < 3 && IsSameTile(ts[i], u);
      assert KeyOf(ts[i]) == KeyOf(u);
      assert CanUse(c, ts[i], 1);
    }
    AddsKeepsLimit(c, r, ts);
  }

  /** `generateShuntsu`: the first drawn sequence whose three tiles all fit. */
  function GenerateShuntsu(isOpen: bool, c: Counter, tries: Tries): (r: (Option<Meld>, Counter))
    ensures r.0.Some? <==> exists k :: 0 <= k < |tries| && FitsOnce(c, SequenceOf(tries[k], isOpen).tiles)
    ensures r.0.None? ==> r.1 == c
    ensures r.0.Some? ==>
              var m := r.0.value;
              && IsRun(m) && m.isOpen == isOpen && FitsOnce(c, m.tiles)
              && Adds(c, r.1, m.tiles)
              && (WithinLimit(c) ==> WithinLimit(r.1))
  {
    match FirstWhere(tries, d => FitsOnce(c, SequenceOf(d, isOpen).tiles))
    case None => (None, c)
    case Some(k) =>
      var m := SequenceOf(tries[k], isOpen);
      var after := UseEach(c, m.tiles);
      assert IsRun(m) by {
        assert forall i :: 0 <= i < 3 ==> m.tiles[i] == CreateTile(m.tiles[0].suit, m.tiles[0].value + i);
      }
      assert WithinLimit(c) ==> WithinLimit(after) by {
        if WithinLimit(c) {
          RunKeepsLimit(c, after, m);
        }
      }
      (Some(m), after)
  }

  /** `generateKoutsu` and `generateKantsu`: the first drawn tile with three
      (or four) copies left, taken as a triplet (or quad). */
  function GenerateSet(kind: MentsuType, useHonor: bool, isOpen: bool, c: Counter, tries: Tries): (r: (Option<Meld>, Counter))
    requires kind != Shuntsu
    ensures r.0.Some? <==> exists k :: 0 <= k < |tries| && CanUse(c, DrawnTile(useHonor, tries[k]), TileCount(kind))
    ensures r.0.None? ==> r.1 == c
    ensures r.0.Some? ==>
              var m := r.0.value;
              && m.kind == kind && m.isOpen == isOpen
              && m.tiles == Copies(m.tiles[0], TileCount(kind))
              && ValidTile(m.tiles[0]) && (m.tiles[0].suit == Honor <==> useHonor)
              && CanUse(c, m.tiles[0], TileCount(kind))
              && Adds(c, r.1, m.tiles)
              && (WithinLimit(c) ==> WithinLimit(r.1))
  {
    var n := TileCount(kind);
    match FirstWhere(tries, d => CanUse(c, DrawnTile(useHonor, d), n))
    case None => (None, c)
    case Some(k) =>
      var t := DrawnTile(useHonor, tries[k]);
      var m: Meld := Mentsu(kind, Copies(t, n), isOpen);
      UseRecordsCopies(c, t, n);
      assert WithinLimit(c) ==> WithinLimit(Use(c, t, n)) by {
        if WithinLimit(c) {
          UseKeepsLimit(c, t, n, 0);
        }
      }
      (Some(m), Use(c, t, n))
  }

  /** `generateJantou`: the first drawn tile with two copies left. */
  function GenerateJantou(useHonor: bool, c: Counter, tries: Tries): (r: (Option<Jantou>, Counter))
    ensures r.0.Some? <==> exists k :: 0 <= k < |tries| && CanUse(c, DrawnTile(useHonor, tries[k]), 2)
    ensures r.0.None? ==> r.1 == c
    ensures r.0.Some? ==>
              var j := r.0.value;
              && j.first == j.second && ValidTile(j.first) && (j.first.suit == Honor <==> useHonor)
              && CanUse(c, j.first, 2)
              && Adds(c, r.1, j.Tiles())
              && (WithinLimit(c) ==> WithinLimit(r.1))
  {
    match FirstWhere(tries, d => CanUse(c, DrawnTile(useHonor, d), 2))
    case None => (None, c)
    case Some(k) =>
      var t := DrawnTile(useHonor, tries[k]);
      UseRecordsCopies(c, t, 2);
      assert Copies(t, 2) == [t, t];
      assert WithinLimit(c) ==> WithinLimit(Use(c, t, 2)) by {
        if WithinLimit(c) {
          UseKeepsLimit(c, t, 2, 0);
        }
      }
      (Some(Jantou(t, t)), Use(c, t, 2))
  }

  /** `determineMentsuType`: an honor meld is a quad with probability
      `kantsuRate` and otherwise a triplet; a number meld is a quad below
      `kantsuRate`, a sequence below 0.6 and otherwise a triplet. */
  function DetermineMentsuType(useHonor: bool, kantsuRate: real, draw: real): (k: MentsuType)
    ensures k == Kantsu <==> draw < kantsuRate
    ensures useHonor ==> k != Shuntsu
    ensures !useHonor && k == Shuntsu ==> draw < 0.6
  {
    if useHonor then (if RandomBool(draw, kantsuRate) then Kantsu else Koutsu)
    else if draw < kantsuRate then Kantsu
    else if draw < 0.6 then Shuntsu
    else Koutsu
  }

  /** A beginner never draws a quad; at the other levels every kind of
      number meld can be drawn. */
  lemma MeldKinds(draw: real, d: Difficulty, useHonor: bool)
    requires 0.0 <= draw
    ensures DetermineMentsuType(useHonor, SettingsOf(Beginner).kantsuRate, draw) != Kantsu
    ensures d != Beginner ==>
              && DetermineMentsuType(false, SettingsOf(d).kantsuRate, 0.0) == Kantsu
              && DetermineMentsuType(false, SettingsOf(d).kantsuRate, 0.5) == Shuntsu
              && DetermineMentsuType(false, SettingsOf(d).kantsuRate, 0.7) == Koutsu
  {
  }

  /** The draws behind one meld of a standard hand. */
  datatype MeldDraws = MeldDraws(
    honorDraw: real,
    openDraw: real,
    typeDraw: real,
    primary: Tries,
    sequenceRetry: Tries,
    tripletRetry: Tries)

  /** `generateStandardMentsu`: the meld of the drawn kind, else a sequence,
      else a number triplet. */
  function GenerateStandardMentsu(useHonor: bool, isOpen: bool, kind: MentsuType, c: Counter, d: MeldDraws): (r: (Option<Meld>, Counter))
    ensures r.0.None? ==> r.1 == c
    ensures r.0.Some? ==>
              && r.0.value.isOpen == isOpen
              && Adds(c, r.1, r.0.value.tiles)
              && (WithinLimit(c) ==> WithinLimit(r.1))
              && (r.0.value.kind == Kantsu ==> kind == Kantsu)
              && (r.0.value.tiles[0].suit == Honor ==> useHonor && kind != Shuntsu)
  {
    var first :=
      match kind
      case Shuntsu => GenerateShuntsu(isOpen, c, d.primary)
      case Koutsu => GenerateSet(Koutsu, useHonor, isOpen, c, d.primary)
      case Kantsu => GenerateSet(Kantsu, useHonor, isOpen, c, d.primary);
    if first.0.Some? then first
    else
      var second := GenerateShuntsu(isOpen, first.1, d.sequenceRetry);
      if second.0.Some? then second
      else GenerateSet(Koutsu, false, isOpen, second.1, d.tripletRetry)
  }

  /** Open melds of a hand. */
  function OpenCount(ms: seq<Meld>): (n: nat)
    ensures n <= |ms|
  {
    if ms == [] then 0 else (if ms[0].isOpen then 1 else 0) + OpenCount(ms[1..])
  }

  /** The meld loop of standard generation: one draw record per meld slot; a
      slot whose meld cannot be built is skipped, and a slot is opened only
      while fewer than two slots have been. */
  function BuildMelds(s: Settings, hasOpen: bool, openSlots: nat, c: Counter, ds: seq<MeldDraws>): (r: (seq<Meld>, Counter))
    requires openSlots <= 2
    ensures |r.0| <= |ds|
    ensures openSlots + OpenCount(r.0) <= 2
    ensures !hasOpen ==> OpenCount(r.0) == 0
    ensures WithinLimit(c) ==> WithinLimit(r.1)
    decreases |ds|
  {
    if ds == [] then ([], c)
    else
      var d := ds[0];
      var useHonor := RandomBool(d.honorDraw, s.honorRate);
      var isOpen := hasOpen && openSlots < 2 && RandomBool(d.openDraw, 0.5);
      var kind := DetermineMentsuType(useHonor, s.kantsuRate, d.typeDraw);
      var g := GenerateStandardMentsu(useHonor, isOpen, kind, c, d);
      var rest := BuildMelds(s, hasOpen, if isOpen then openSlots + 1 else openSlots, g.1, ds[1..]);
      if g.0.Some? then
        var ms := [g.0.value] + rest.0;
        assert ms[1..] == rest.0;
        (ms, rest.1)
      else rest
  }

  /** The draws of the four meld slots of a hand. */
  type SlotDraws = s: seq<MeldDraws> | |s| == 4
    witness seq(4, _ => MeldDraws(0.0, 0.0, 0.0,
                                  seq(MELD_TRIES, _ => TileDraw(0, 0)),
                                  seq(MELD_TRIES, _ => TileDraw(0, 0)),
                                  seq(MELD_TRIES, _ => TileDraw(0, 0))))

  /** The draws behind a standard hand: four meld slots and the pair. */
  datatype HandDraws = HandDraws(
    hasOpenDraw: real,
    melds: SlotDraws,
    pairHonorDraw: real,
    pairTries: Tries,
    pairRetry: Tries)

  /** The standard hand builder shared by both generators: up to four melds
      from a fresh counter, at most two of them open, then a pair of the
      drawn kind or else a number pair. */
  function BuildStandardHand(s: Settings, d: HandDraws): (r: (seq<Meld>, Option<Jantou>, Counter))
    ensures |r.0| <= 4
    ensures OpenCount(r.0) <= 2
    ensures WithinLimit(r.2)
  {
    EmptyCounter(CreateTile(Man, 1), 0);
    var hasOpen := RandomBool(d.hasOpenDraw, s.openRate);
    var melds := BuildMelds(s, hasOpen, 0, EMPTY, d.melds);
    var first := GenerateJantou(RandomBool(d.pairHonorDraw, s.honorRate), melds.1, d.pairTries);
    if first.0.Some? then (melds.0, first.0, first.1)
    else
      var second := GenerateJantou(false, first.1, d.pairRetry);
      (melds.0, second.0, second.1)
  }

  // ---------------------------------------------------------------------------
  // Waits and the winning tile

  /** The wait a sequence gives when the tile at `position` completes it:
      the middle tile is a closed wait, an outer tile a two-sided wait unless
      the other side would fall off the board. */
  function GetWaitTypeFromShuntsuPosition(startValue: int, position: int): WaitType
  {
    if position == 1 then Kanchan
    else if position == 0 then (if startValue == 7 then Penchan else Ryanmen)
    else if startValue == 1 then Penchan
    else Ryanmen
  }

  /** The two tiles left of a sequence starting at `start` once the tile at
      `position` is taken out, lower one first. */
  function Remaining(start: int, position: int): (int, int)
  {
    if position == 0 then (start + 1, start + 2)
    else if position == 1 then (start, start + 2)
    else (start, start + 1)
  }

  /** How many tile values 1..9 complete the two-tile shape into a sequence. */
  function CompletionCount(low: int, high: int): nat
  {
    if high == low + 1 then (if low - 1 >= 1 then 1 else 0) + (if high + 1 <= 9 then 1 else 0)
    else if high == low + 2 then 1
    else 0
  }

  /** The position rule agrees with the shape of the two tiles left over: a
      gap is a closed wait, an adjacent pair waiting on two values is
      two-sided, one waiting on a single value is an edge wait. */
  lemma WaitMatchesShape(start: int, position: int)
    requires 1 <= start <= 7 && 0 <= position <= 2
    ensures var (lo, hi) := Remaining(start, position);
            var w := GetWaitTypeFromShuntsuPosition(start, position);
            && (w == Kanchan <==> hi == lo + 2)
            && (w == Ryanmen <==> CompletionCount(lo, hi) == 2)
            && (w == Penchan <==> hi == lo + 1 && CompletionCount(lo, hi) == 1)
  {
  }

  /** An open meld that claims the tile kind: a triplet or quad of it, or a
      sequence holding it. */
  predicate Claims(m: Meld, t: Tile)
  {
    && m.isOpen
    && if m.kind == Shuntsu then exists j :: 0 <= j < |m.tiles| && IsSameTile(m.tiles[j], t)
       else IsSameTile(m.tiles[0], t)
  }

  /** `isInOpenKoutsuOrKantsu`. */
  function IsInOpenKoutsuOrKantsu(t: Tile, ms: seq<Meld>): (r: bool)
    ensures r <==> exists i :: 0 <= i < |ms| && ms[i].kind != Shuntsu && Claims(ms[i], t)
  {
    if ms == [] then false
    else
      (ms[0].isOpen && ms[0].kind != Shuntsu && IsSameTile(ms[0].tiles[0], t))
      || (assert forall i :: 0 < i < |ms| ==> ms[i] == ms[1..][i - 1];
          IsInOpenKoutsuOrKantsu(t, ms[1..]))
  }

  /** `isInOpenShuntsu`. */
  function IsInOpenShuntsu(t: Tile, ms: seq<Meld>): (r: bool)
    ensures r <==> exists i :: 0 <= i < |ms| && ms[i].kind == Shuntsu && Claims(ms[i], t)
  {
    if ms == [] then false
    else
      (ms[0].isOpen && ms[0].kind == Shuntsu && exists j :: 0 <= j < |ms[0].tiles| && IsSameTile(ms[0].tiles[j], t))
      || (assert forall i :: 0 < i < |ms| ==> ms[i] == ms[1..][i - 1];
          IsInOpenShuntsu(t, ms[1..]))
  }

  /** `isValidRonTile`: a ron tile may not be claimed by an open meld. */
  function IsValidRonTile(t: Tile, ms: seq<Meld>): (r: bool)
    ensures r <==> forall i :: 0 <= i < |ms| ==> !Claims(ms[i], t)
  {
    !IsInOpenKoutsuOrKantsu(t, ms) && !IsInOpenShuntsu(t, ms)
  }

  /** A winning tile together with the wait it completes. */
  datatype Candidate = Candidate(tile: Tile, waitType: WaitType)

  /** The winning-tile candidates one meld offers: each tile of a closed
      sequence with the wait its position gives, the first tile of a closed
      triplet or quad as a two-pair wait; an open meld offers none. */
  function MeldCandidates(m: Meld): seq<Candidate>
  {
    if m.isOpen then []
    else if m.kind == Shuntsu then
      var v := m.tiles[0].value;
      [Candidate(m.tiles[0], GetWaitTypeFromShuntsuPosition(v, 0)),
       Candidate(m.tiles[1], GetWaitTypeFromShuntsuPosition(v, 1)),
       Candidate(m.tiles[2], GetWaitTypeFromShuntsuPosition(v, 2))]
    else [Candidate(m.tiles[0], Shanpon)]
  }

  /** The closed sequences' candidates, meld by meld. */
  function SequenceCandidates(ms: seq<Meld>): seq<Candidate>
  {
    if ms == [] then []
    else (if ms[0].kind == Shuntsu then MeldCandidates(ms[0]) else []) + SequenceCandidates(ms[1..])
  }

  /** The closed triplets' and quads' candidates, meld by meld. */
  function SetCandidates(ms: seq<Meld>): seq<Candidate>
  {
    if ms == [] then []
    else (if ms[0].kind != Shuntsu then MeldCandidates(ms[0]) else []) + SetCandidates(ms[1..])
  }

  /** All candidates in collection order: sequences, then triplets and
      quads, then the pair tile as a single wait. */
  function Candidates(ms: seq<Meld>, jantou: Jantou): seq<Candidate>
  {
    SequenceCandidates(ms) + SetCandidates(ms) + [Candidate(jantou.first, Tanki)]
  }

  lemma {:induction false} SequenceCandidatesMembers(ms: seq<Meld>, x: Candidate)
    ensures x in SequenceCandidates(ms) <==>
              exists i :: 0 <= i < |ms| && ms[i].kind == Shuntsu && x in MeldCandidates(ms[i])
  {
    if ms != [] {
      SequenceCandidatesMembers(ms[1..], x);
      assert forall i :: 0 < i < |ms| ==> ms[i] == ms[1..][i - 1];
      if x in SequenceCandidates(ms[1..]) {
        var i :| 0 <= i < |ms[1..]| && ms[1..][i].kind == Shuntsu && x in MeldCandidates(ms[1..][i]);
        assert ms[i + 1] == ms[1..][i];
      }
    }
  }

  lemma {:induction false} SetCandidatesMembers(ms: seq<Meld>, x: Candidate)
    ensures x in SetCandidates(ms) <==>
              exists i :: 0 <= i < |ms| && ms[i].kind != Shuntsu && x in MeldCandidates(ms[i])
  {
    if ms != [] {
      SetCandidatesMembers(ms[1..], x);
      assert forall i :: 0 < i < |ms| ==> ms[i] == ms[1..][i - 1];
      if x in SetCandidates(ms[1..]) {
        var i :| 0 <= i < |ms[1..]| && ms[1..][i].kind != Shuntsu && x in MeldCandidates(ms[1..][i]);
        assert ms[i + 1] == ms[1..][i];
      }
    }
  }

  /** Candidates come only from closed melds and the pair. */
  lemma CandidatesFromHand(ms: seq<Meld>, jantou: Jantou, x: Candidate)
    ensures x in Candidates(ms, jantou) <==>
              x == Candidate(jantou.first, Tanki)
              || exists i :: 0 <= i < |ms| && x in MeldCandidates(ms[i])
  {
    SequenceCandidatesMembers(ms, x);
    SetCandidatesMembers(ms, x);
  }

  function Swap<T>(s: seq<T>, i: nat, j: nat): (r: seq<T>)
    requires i < |s| && j < |s|
    ensures multiset(r) == multiset(s) && |r| == |s|
  {
    s[i := s[j]][j := s[i]]
  }

  /** The pre-drawn index for step `k` of a shuffle; a missing draw picks
      position 0, itself a possible outcome. */
  function DrawAt(draws: seq<nat>, k: nat): nat
  {
    if k < |draws| then draws[k] else 0
  }

  /** Fisher-Yates from position `i` down to 1, step `k` onwards. */
  function ShuffleFrom<T>(s: seq<T>, i: nat, draws: seq<nat>, k: nat): (r: seq<T>)
    requires i < |s|
    ensures multiset(r) == multiset(s) && |r| == |s|
    decreases i
  {
    if i == 0 then s
    else ShuffleFrom(Swap(s, i, DrawAt(draws, k) % (i + 1)), i - 1, draws, k + 1)
  }

  /** `shuffleArray`: a permutation of its input. */
  function Shuffle<T>(s: seq<T>, draws: seq<nat>): (r: seq<T>)
    ensures multiset(r) == multiset(s) && |r| == |s|
  {
    if |s| <= 1 then s else ShuffleFrom(s, |s| - 1, draws, 0)
  }

  /** The tile can still be drawn and, on a ron, is not claimed by an open
      meld. */
  predicate Usable(c: Counter, t: Tile, winType: WinType, ms: seq<Meld>)
  {
    CanUse(c, t, 1) && (winType == Ron ==> IsValidRonTile(t, ms))
  }

  /** The tiles of the closed melds in order, each with the wait the source
      assigns when the main candidates are all unusable. */
  function ClosedTileCandidates(ms: seq<Meld>): seq<Candidate>
  {
    if ms == [] then []
    else
      var m := ms[0];
      (if m.isOpen then []
       else seq(|m.tiles|, i requires 0 <= i < |m.tiles| =>
              Candidate(m.tiles[i], if m.kind == Shuntsu then GetWaitTypeFromShuntsuPosition(m.tiles[0].value, i) else Shanpon)))
      + ClosedTileCandidates(ms[1..])
  }

  /** The main stage: the first usable candidate of the shuffled list. */
  function ShuffledPick(ms: seq<Meld>, jantou: Jantou, winType: WinType, c: Counter, shuffle: seq<nat>): (r: Option<Candidate>)
    ensures r.Some? ==> r.value in Candidates(ms, jantou) && Usable(c, r.value.tile, winType, ms)
    ensures r.None? ==> forall x :: x in Candidates(ms, jantou) ==> !Usable(c, x.tile, winType, ms)
  {
    FirstOfShuffle(Candidates(ms, jantou), (x: Candidate) => Usable(c, x.tile, winType, ms), shuffle)
  }

  /** The first element of the shuffled sequence that satisfies `p`: one of
      the input's elements, found whenever one of them satisfies `p`. */
  function FirstOfShuffle<T>(s: seq<T>, p: T -> bool, shuffle: seq<nat>): (r: Option<T>)
    ensures r.Some? ==> r.value in s && p(r.value)
    ensures r.None? ==> forall x :: x in s ==> !p(x)
  {
    var shuffled := Shuffle(s, shuffle);
    match FirstWhere(shuffled, p)
    case Some(k) =>
      assert shuffled[k] in multiset(shuffled);
      Some(shuffled[k])
    case None =>
      assert forall x :: x in s ==> !p(x) by {
        forall x | x in s ensures !p(x) {
          assert x in multiset(shuffled);
          var k :| 0 <= k < |shuffled| && shuffled[k] == x;
        }
      }
      None
  }

  /** The fallback stage: a usable closed-meld tile, else the pair tile as a
      single wait, each recorded once; else 1m as a single wait, which the
      counter never sees. */
  function FallbackPick(ms: seq<Meld>, jantou: Jantou, winType: WinType, c: Counter): (r: (Candidate, Counter))
    ensures || (Usable(c, r.0.tile, winType, ms) && r.1 == Use(c, r.0.tile, 1))
            || (r.0 == Candidate(CreateTile(Man, 1), Tanki) && r.1 == c)
    ensures Usable(c, jantou.first, winType, ms) ==> Usable(c, r.0.tile, winType, ms) && r.1 == Use(c, r.0.tile, 1)
    ensures var closed := ClosedTileCandidates(ms);
            (exists k :: 0 <= k < |closed| && Usable(c, closed[k].tile, winType, ms)) ==>
              exists k :: 0 <= k < |closed| && r.0 == closed[k] && Usable(c, r.0.tile, winType, ms)
                          && r.1 == Use(c, r.0.tile, 1)
                          && forall j :: 0 <= j < k ==> !Usable(c, closed[j].tile, winType, ms)
    ensures var closed := ClosedTileCandidates(ms);
            (forall k :: 0 <= k < |closed| ==> !Usable(c, closed[k].tile, winType, ms)) ==>
              r == if Usable(c, jantou.first, winType, ms) then (Candidate(jantou.first, Tanki), Use(c, jantou.first, 1))
                   else (Candidate(CreateTile(Man, 1), Tanki), c)
  {
    var closed := ClosedTileCandidates(ms);
    match FirstWhere(closed, (x: Candidate) => Usable(c, x.tile, winType, ms))
    case Some(k) => (closed[k], Use(c, closed[k].tile, 1))
    case None =>
      if Usable(c, jantou.first, winType, ms) then (Candidate(jantou.first, Tanki), Use(c, jantou.first, 1))
      else (Candidate(CreateTile(Man, 1), Tanki), c)
  }

  /** Every candidate a closed meld offers has its tile among the fallback
      stage's closed-meld tiles. */
  lemma {:induction false} MeldCandidateInClosed(ms: seq<Meld>, i: nat, x: Candidate)
    requires i < |ms| && x in MeldCandidates(ms[i])
    ensures exists k :: 0 <= k < |ClosedTileCandidates(ms)| && ClosedTileCandidates(ms)[k].tile == x.tile
    decreases |ms|
  {
    var m := ms[0];
    var head := if m.isOpen then []
                else seq(|m.tiles|, j requires 0 <= j < |m.tiles| =>
                       Candidate(m.tiles[j], if m.kind == Shuntsu then GetWaitTypeFromShuntsuPosition(m.tiles[0].value, j) else Shanpon));
    assert ClosedTileCandidates(ms) == head + ClosedTileCandidates(ms[1..]);
    if i == 0 {
      var j :| 0 <= j < |m.tiles| && x.tile == m.tiles[j];
      assert ClosedTileCandidates(ms)[j] == head[j];
    } else {
      assert ms[1..][i - 1] == ms[i];
      MeldCandidateInClosed(ms[1..], i - 1, x);
      var k :| 0 <= k < |ClosedTileCandidates(ms[1..])| && ClosedTileCandidates(ms[1..])[k].tile == x.tile;
      assert ClosedTileCandidates(ms)[|head| + k] == ClosedTileCandidates(ms[1..])[k];
    }
  }

  /** A usable candidate of the shuffled stage is a usable closed-meld tile
      or the usable pair tile, so that stage finds something whenever the
      fallback stage would. */
  lemma UsableCandidateInFallback(ms: seq<Meld>, jantou: Jantou, winType: WinType, c: Counter, x: Candidate)
    requires x in Candidates(ms, jantou) && Usable(c, x.tile, winType, ms)
    ensures || (exists k :: 0 <= k < |ClosedTileCandidates(ms)| && Usable(c, ClosedTileCandidates(ms)[k].tile, winType, ms))
            || Usable(c, jantou.first, winType, ms)
  {
    CandidatesFromHand(ms, jantou, x);
    if x != Candidate(jantou.first, Tanki) {
      var i :| 0 <= i < |ms| && x in MeldCandidates(ms[i]);
      MeldCandidateInClosed(ms, i, x);
    }
  }

  /** `determineWinningTileAndWaitType`: the first usable candidate of the
      shuffled list, else the fallback stage. A usable tile is recorded once;
      the last-resort 1m bypasses the counter. */
  function DetermineWinningTileAndWaitType(ms: seq<Meld>, jantou: Jantou, winType: WinType, c: Counter, shuffle: seq<nat>): (r: (Candidate, Counter))
    ensures || (Usable(c, r.0.tile, winType, ms) && r.1 == Use(c, r.0.tile, 1))
            || (r.0 == Candidate(CreateTile(Man, 1), Tanki) && r.1 == c)
    ensures (exists x :: x in Candidates(ms, jantou) && Usable(c, x.tile, winType, ms)) ==>
              && r.0 in Candidates(ms, jantou)
              && Usable(c, r.0.tile, winType, ms)
              && r.1 == Use(c, r.0.tile, 1)
    ensures (forall k :: 0 <= k < |ClosedTileCandidates(ms)| ==> !Usable(c, ClosedTileCandidates(ms)[k].tile, winType, ms))
            && !Usable(c, jantou.first, winType, ms) ==>
              r == (Candidate(CreateTile(Man, 1), Tanki), c)
  {
    match ShuffledPick(ms, jantou, winType, c, shuffle)
    case Some(x) =>
      UsableCandidateInFallback(ms, jantou, winType, c, x);
      (x, Use(c, x.tile, 1))
    case None =>
      FallbackPick(ms, jantou, winType, c)
  }

  // ---------------------------------------------------------------------------
  // Dora indicators

  /** The draws of one indicator try: below 0.7 a number tile, otherwise an
      honor. */
  datatype DoraDraw = DoraDraw(numberDraw: real, tile: TileDraw)

  function DoraTileOf(d: DoraDraw): (t: Tile)
    ensures ValidTile(t)
  {
    DrawnTile(!RandomBool(d.numberDraw, 0.7), d.tile)
  }

  /** An indicator is drawn at most this many times before the scan. */
  const DORA_TRIES: nat := 20

  type DoraTries = s: seq<DoraDraw> | |s| == DORA_TRIES
    witness seq(DORA_TRIES, _ => DoraDraw(0.0, TileDraw(0, 0)))

  /** The number tiles in scan order: man, pin, sou, each 1..9. */
  function NumberTiles(): (r: seq<Tile>)
    ensures |r| == 27
    ensures forall i :: 0 <= i < 27 ==> ValidTile(r[i]) && r[i].suit != Honor
    ensures forall i :: 0 <= i < 27 ==>
              SuitOrder(r[i].suit) == i / 9 && r[i].value == i % 9 + 1 && r[i].honorType == None
    ensures forall s, v :: s != Honor && 1 <= v <= 9 ==>
              exists i :: 0 <= i < 27 && r[i] == CreateTile(s, v)
  {
    var r := seq(27, i requires 0 <= i < 27 => CreateTile(NumberSuit(i / 9), 1 + i % 9));
    forall i | 0 <= i < 27
      ensures SuitOrder(r[i].suit) == i / 9 && r[i].value == i % 9 + 1 && r[i].honorType == None
    {
      if i < 9 {
        assert i / 9 == 0 && i % 9 == i;
      } else if i < 18 {
        assert i / 9 == 1 && i % 9 == i - 9;
      } else {
        assert i / 9 == 2 && i % 9 == i - 18;
      }
    }
    forall s, v | s != Honor && 1 <= v <= 9
      ensures exists i :: 0 <= i < 27 && r[i] == CreateTile(s, v)
    {
      var i := 9 * SuitOrder(s) + v - 1;
      assert SuitOrder(r[i].suit) == SuitOrder(s) && r[i].value == v;
      assert r[i] == CreateTile(s, v);
    }
    r
  }

  /** The scan after the tries: the first tile of `scan` with a copy left,
      recorded once, else 1m with the counter bypassed. */
  function ScanTiles(scan: seq<Tile>, c: Counter): (r: (Tile, Counter))
    ensures || (exists i :: 0 <= i < |scan| && r.0 == scan[i] && CanUse(c, r.0, 1) && r.1 == Use(c, r.0, 1)
                            && forall j :: 0 <= j < i ==> !CanUse(c, scan[j], 1))
            || (r.0 == CreateTile(Man, 1) && r.1 == c && forall i :: 0 <= i < |scan| ==> !CanUse(c, scan[i], 1))
    ensures WithinLimit(c) ==> WithinLimit(r.1)
  {
    match FirstWhere(scan, t => CanUse(c, t, 1))
    case Some(k) =>
      var t := scan[k];
      assert WithinLimit(c) ==> WithinLimit(Use(c, t, 1)) by {
        if WithinLimit(c) {
          UseKeepsLimit(c, t, 1, 0);
        }
      }
      (t, Use(c, t, 1))
    case None => (CreateTile(Man, 1), c)
  }

  /** `generateSingleDoraIndicator`: the first drawn tile with a copy left,
      else the scan over the number tiles. */
  function SingleDoraIndicator(c: Counter, tries: DoraTries): (r: (Tile, Counter))
    ensures || (CanUse(c, r.0, 1) && ValidTile(r.0) && r.1 == Use(c, r.0, 1))
            || (r.0 == CreateTile(Man, 1) && r.1 == c
                && forall i :: 0 <= i < 27 ==> !CanUse(c, NumberTiles()[i], 1))
    ensures (exists k :: 0 <= k < |tries| && CanUse(c, DoraTileOf(tries[k]), 1)) ==>
              exists k :: 0 <= k < |tries| && r.0 == DoraTileOf(tries[k]) && CanUse(c, r.0, 1)
                          && forall j :: 0 <= j < k ==> !CanUse(c, DoraTileOf(tries[j]), 1)
    ensures (forall k :: 0 <= k < |tries| ==> !CanUse(c, DoraTileOf(tries[k]), 1)) ==>
              var scan := NumberTiles();
              (exists i :: 0 <= i < 27 && CanUse(c, scan[i], 1)) ==>
                exists i :: 0 <= i < 27 && r.0 == scan[i] && CanUse(c, r.0, 1) && r.1 == Use(c, r.0, 1)
                            && forall j :: 0 <= j < i ==> !CanUse(c, scan[j], 1)
    ensures WithinLimit(c) ==> WithinLimit(r.1)
  {
    match FirstWhere(tries, d => CanUse(c, DoraTileOf(d), 1))
    case Some(k) =>
      var t := DoraTileOf(tries[k]);
      assert WithinLimit(c) ==> WithinLimit(Use(c, t, 1)) by {
        if WithinLimit(c) {
          UseKeepsLimit(c, t, 1, 0);
        }
      }
      (t, Use(c, t, 1))
    case None => ScanTiles(NumberTiles(), c)
  }

  predicate HasKantsu(ms: seq<Meld>)
  {
    exists i :: 0 <= i < |ms| && ms[i].kind == Kantsu
  }

  /** `determineDoraCount`: two or three indicators with a quad in the hand
      (even odds), otherwise one, two or three. */
  function DetermineDoraCount(ms: seq<Meld>, draw: real): (n: nat)
    ensures HasKantsu(ms) ==> n == 2 || n == 3
    ensures !HasKantsu(ms) ==> 1 <= n <= 3
  {
    if HasKantsu(ms) then (if RandomBool(draw, 0.5) then 2 else 3)
    else if draw < 0.5 then 1
    else if draw < 0.75 then 2
    else 3
  }

  /** Every count of the range is the outcome of some draw. */
  lemma DoraCountCovers(ms: seq<Meld>)
    ensures HasKantsu(ms) ==> DetermineDoraCount(ms, 0.0) == 2 && DetermineDoraCount(ms, 0.9) == 3
    ensures !HasKantsu(ms) ==>
              && DetermineDoraCount(ms, 0.0) == 1
              && DetermineDoraCount(ms, 0.6) == 2
              && DetermineDoraCount(ms, 0.9) == 3
  {
  }

  /** Draws for up to three indicators. */
  type DoraPlan = s: seq<DoraTries> | |s| == 3
    witness [seq(DORA_TRIES, _ => DoraDraw(0.0, TileDraw(0, 0))),
             seq(DORA_TRIES, _ => DoraDraw(0.0, TileDraw(0, 0))),
             seq(DORA_TRIES, _ => DoraDraw(0.0, TileDraw(0, 0)))]

  /** One indicator per try list, each drawn against the counter the
      previous one left. */
  function Indicators(c: Counter, plan: seq<DoraTries>): (r: (seq<Tile>, Counter))
    ensures |r.0| == |plan|
    ensures forall i :: 0 <= i < |r.0| ==> ValidTile(r.0[i])
    ensures WithinLimit(c) ==> WithinLimit(r.1)
    decreases |plan|
  {
    if plan == [] then ([], c)
    else
      var first := SingleDoraIndicator(c, plan[0]);
      var rest := Indicators(first.1, plan[1..]);
      ([first.0] + rest.0, rest.1)
  }

  /** `generateDoraIndicators`. */
  function GenerateDoraIndicators(c: Counter, ms: seq<Meld>, countDraw: real, plan: DoraPlan): (r: (seq<Tile>, Counter))
    ensures 1 <= |r.0| <= 3
    ensures HasKantsu(ms) ==> 2 <= |r.0|
    ensures forall i :: 0 <= i < |r.0| ==> ValidTile(r.0[i])
    ensures WithinLimit(c) ==> WithinLimit(r.1)
  {
    Indicators(c, plan[..DetermineDoraCount(ms, countDraw)])
  }

  // ---------------------------------------------------------------------------
  // Building a problem from a hand

  /** The draws of the context of a hand: win type, dealer, winds, dora. */
  datatype ContextDraws = ContextDraws(
    winPick: nat,
    dealerDraw: real,
    roundPick: nat,
    seatPick: nat,
    doraCountDraw: real,
    doraPlan: DoraPlan)

  datatype BuildDraws = BuildDraws(context: ContextDraws, shuffle: seq<nat>)

  /** `randomChoice(['tsumo', 'ron'])`. */
  function WinTypeOf(pick: nat): WinType
  {
    if pick % 2 == 0 then Tsumo else Ron
  }

  /** The winner is the dealer with probability 0.25. */
  function PlayerTypeOf(draw: real): PlayerType
  {
    if RandomBool(draw, 0.25) then Oya else Ko
  }

  /** A hand made into a problem with its drawn context and han still 0: the
      problem the yaku calculator is asked about. */
  function HandProblem(ms: seq<Meld>, jantou: Jantou, c: Counter, d: BuildDraws): (p: Problem)
    ensures p.mentsu == ms && p.jantou == jantou && p.han == 0 && p.shape == Standard
    ensures p.isMenzen <==> forall i :: 0 <= i < |ms| ==> !ms[i].isOpen
    ensures ValidContext(p)
    ensures HasKantsu(ms) ==> 2 <= |p.doraIndicators|
    ensures var w := DetermineWinningTileAndWaitType(ms, jantou, p.winType, c, d.shuffle).0;
            p.winningTile == w.tile && p.waitType == w.waitType
  {
    var winType := WinTypeOf(d.context.winPick);
    var playerType := PlayerTypeOf(d.context.dealerDraw);
    var w := DetermineWinningTileAndWaitType(ms, jantou, winType, c, d.shuffle);
    var roundWind := RandomInt(1, 2, d.context.roundPick);
    var seatWind := RandomInt(1, 4, d.context.seatPick);
    var dora := GenerateDoraIndicators(w.1, ms, d.context.doraCountDraw, d.context.doraPlan);
    var isMenzen := forall i :: 0 <= i < |ms| ==> !ms[i].isOpen;
    Problem(ms, jantou, winType, playerType, w.0.waitType, w.0.tile, 0, isMenzen, seatWind, roundWind, dora.0, Standard)
  }

  /** A problem together with the yaku result it was judged with. */
  datatype Generated = Generated(problem: Problem, yaku: YakuResult)

  /** What every problem either generator returns satisfies. */
  predicate GeneratedShape(p: Problem)
  {
    && ValidContext(p)
    && (!IsChiitoitsuProblem(p) ==> 1 <= p.han <= 12)
    && (IsChiitoitsuProblem(p) ==> p.isMenzen && p.waitType == Tanki)
  }

  /** What every generated problem satisfies: at least one yaku, the han
      it states is the judged total, and the shape above. */
  predicate Accepted(g: Generated)
  {
    g.yaku.yakuList != [] && g.problem.han == g.yaku.totalHan && GeneratedShape(g.problem)
  }

  /** The yaku result a problem carries is the calculator's verdict on the
      problem as it stood before its han was filled in. */
  predicate JudgedOnHand(g: Generated)
  {
    g.yaku == CalculateYaku(g.problem.(han := 0))
  }

  /** The acceptance rule of `createProblemFromHand` applied to the yaku
      judged for a hand: no yaku or 13 han and more rejects it; otherwise
      the judged total becomes the problem's han, and a well-formed
      standard hand whose total counts at least one han per yaku gives an
      accepted problem. */
  function Judge(temp: Problem, y: YakuResult): (r: Option<Generated>)
    ensures r.None? <==> y.yakuList == [] || y.totalHan >= 13
    ensures r.Some? ==>
              && r.value.yaku == y
              && r.value.problem == temp.(han := y.totalHan)
              && r.value.problem.han <= 12
    ensures r.Some? && ValidContext(temp) && temp.shape == Standard && y.totalHan >= |y.yakuList| ==>
              && Accepted(r.value)
              && 1 <= r.value.problem.han
              && !IsChiitoitsuProblem(r.value.problem)
  {
    if y.yakuList == [] then None
    else if y.totalHan >= 13 then None
    else Some(Generated(temp.(han := y.totalHan), y))
  }

  /** `createProblemFromHand`: the hand with its drawn context, judged. An
      accepted problem keeps the hand and is closed exactly when none of its
      melds is open. */
  function CreateProblemFromHand(ms: seq<Meld>, jantou: Jantou, c: Counter, d: BuildDraws): (r: Option<Generated>)
    ensures var y := CalculateYaku(HandProblem(ms, jantou, c, d));
            r.None? <==> y.yakuList == [] || y.totalHan >= 13
    ensures r.Some? ==> r.value.yaku == CalculateYaku(HandProblem(ms, jantou, c, d))
    ensures r.Some? ==>
              && r.value.problem == HandProblem(ms, jantou, c, d).(han := r.value.problem.han)
              && 1 <= r.value.problem.han <= 12
              && Accepted(r.value)
              && JudgedOnHand(r.value)
              && !IsChiitoitsuProblem(r.value.problem)
              && r.value.problem.mentsu == ms && r.value.problem.jantou == jantou
              && (r.value.problem.isMenzen <==> forall i :: 0 <= i < |ms| ==> !ms[i].isOpen)
  {
    var temp := HandProblem(ms, jantou, c, d);
    Judge(temp, CalculateYaku(temp))
  }

  /** A closed hand always carries riichi, so it is only ever rejected for
      reaching 13 han. */
  lemma ClosedHandHasYaku(ms: seq<Meld>, jantou: Jantou, c: Counter, d: BuildDraws)
    requires forall i :: 0 <= i < |ms| ==> !ms[i].isOpen
    ensures Has(CalculateYaku(HandProblem(ms, jantou, c, d)).yakuList, Riichi)
    ensures CreateProblemFromHand(ms, jantou, c, d).None? ==>
              CalculateYaku(HandProblem(ms, jantou, c, d)).totalHan >= 13
  {
    var p := HandProblem(ms, jantou, c, d);
    DefinitionHanFacts(Riichi);
    assert Awarded(p, Riichi);
    assert Has(CalculateYaku(p).yakuList, Riichi);
  }

  /** An accepted hand never scores as a yakuman, whatever its fu. */
  lemma GeneratedIsNeverYakuman(ms: seq<Meld>, jantou: Jantou, c: Counter, d: BuildDraws, fu: nat)
    requires CreateProblemFromHand(ms, jantou, c, d).Some?
    ensures CheckLimit(fu, CreateProblemFromHand(ms, jantou, c, d).value.problem.han) != Some(Yakuman)
  {
  }

  // ---------------------------------------------------------------------------
  // Seven pairs

  /** The drawn result of the seven-pairs hand builder (its pairs and the
      counter it leaves) and the draws of the problem's context. */
  datatype ChiitoitsuDraws = ChiitoitsuDraws(pairs: seq<Jantou>, counter: Counter, context: ContextDraws, winnerPick: nat)

  function PairTiles(pairs: seq<Jantou>): (r: seq<seq<Tile>>)
    ensures |r| == |pairs|
    ensures forall i :: 0 <= i < |pairs| ==> r[i] == [pairs[i].first, pairs[i].second]
  {
    seq(|pairs|, i requires 0 <= i < |pairs| => pairs[i].Tiles())
  }

  /** `createChiitoitsuProblem`: needs seven pairs; the winning tile is a
      tile of one of the first seven, always as a single wait, and the hand
      is closed. */
  function CreateChiitoitsuProblem(d: ChiitoitsuDraws): (r: Option<Generated>)
    ensures r.None? <==> |d.pairs| < 7
    ensures r.Some? ==>
              var p := r.value.problem;
              && Accepted(r.value)
              && IsChiitoitsuProblem(p) && p.shape.toitsu == Some(PairTiles(d.pairs))
              && p.mentsu == [] && p.jantou == d.pairs[0]
              && p.isMenzen && p.waitType == Tanki
              && (exists k :: 0 <= k < 7 && p.winningTile == d.pairs[k].first)
              && JudgedOnHand(r.value)
              && Has(r.value.yaku.yakuList, Chiitoitsu)
  {
    if |d.pairs| < 7 then None
    else
      var winType := WinTypeOf(d.context.winPick);
      var playerType := PlayerTypeOf(d.context.dealerDraw);
      var k := RandomInt(0, 6, d.winnerPick);
      var winningTile := d.pairs[k].first;
      var roundWind := RandomInt(1, 2, d.context.roundPick);
      var seatWind := RandomInt(1, 4, d.context.seatPick);
      var dora := GenerateDoraIndicators(d.counter, [], d.context.doraCountDraw, d.context.doraPlan);
      var temp := Problem([], d.pairs[0], winType, playerType, Tanki, winningTile, 0, true,
                          seatWind, roundWind, dora.0, SevenPairs(Some(PairTiles(d.pairs))));
      var y := CalculateYaku(temp);
      assert y.yakuList[0] == JudgedYaku(Chiitoitsu, 2);
      if y.yakuList == [] then None
      else
        assert temp.(han := y.totalHan).(han := 0) == temp;
        Some(Generated(temp.(han := y.totalHan), y))
  }

  // ---------------------------------------------------------------------------
  // The fallback problem

  /** The fixed problem returned once the retries are used up: 123m 456m
      234p 567s with a 22s pair, a non-dealer ron on 3m declared as a
      two-sided wait, 2 han, east round, south seat, east as indicator. */
  function FallbackProblem(): Problem
  {
    Problem(
      [Mentsu(Shuntsu, [Tile(Man, 1, None), Tile(Man, 2, None), Tile(Man, 3, None)], false),
       Mentsu(Shuntsu, [Tile(Man, 4, None), Tile(Man, 5, None), Tile(Man, 6, None)], false),
       Mentsu(Shuntsu, [Tile(Pin, 2, None), Tile(Pin, 3, None), Tile(Pin, 4, None)], false),
       Mentsu(Shuntsu, [Tile(Sou, 5, None), Tile(Sou, 6, None), Tile(Sou, 7, None)], false)],
      Jantou(Tile(Sou, 2, None), Tile(Sou, 2, None)),
      Ron, Ko, Ryanmen, Tile(Man, 3, None), 2, true, 2, 1,
      [Tile(Honor, 1, Some(Ton))],
      Standard)
  }

  /** The fallback with the yaku result judged for it. */
  function FallbackGenerated(): Generated
  {
    Generated(FallbackProblem(), CalculateYaku(FallbackProblem()))
  }

  /** The fallback is a closed hand of four sequences and a non-yakuhai
      pair in the documented context, so it is pinfu. */
  lemma FallbackShape()
    ensures var p := FallbackProblem();
            && ValidContext(p) && p.isMenzen && !IsChiitoitsuProblem(p)
            && |p.mentsu| == 4 && (forall i :: 0 <= i < 4 ==> IsRun(p.mentsu[i]))
            && IsPinfu(p)
  {
    var p := FallbackProblem();
    assert forall i :: 0 <= i < 4 ==> IsRun(p.mentsu[i]) by {
      forall i | 0 <= i < 4 ensures IsRun(p.mentsu[i]) {
        var m := p.mentsu[i];
        assert forall j :: 0 <= j < 3 ==> m.tiles[j] == CreateTile(m.tiles[0].suit, m.tiles[0].value + j);
      }
    }
    assert !IsYakuhai(p.jantou.first, p.seatWind, p.roundWind);
  }

  /** Riichi and pinfu are among the fallback's yaku. */
  lemma FallbackYaku()
    ensures Has(CalculateYaku(FallbackProblem()).yakuList, Riichi)
    ensures Has(CalculateYaku(FallbackProblem()).yakuList, Pinfu)
  {
    var p := FallbackProblem();
    FallbackShape();
    DefinitionHanFacts(Riichi);
    DefinitionHanFacts(Pinfu);
    assert Awarded(p, Riichi) && Awarded(p, Pinfu);
  }

  /** A tile of a meld is a tile of the hand. */
  lemma MeldTileInHand(p: Problem, k: nat, j: nat)
    requires k < |p.mentsu| && j < |p.mentsu[k].tiles|
    ensures p.mentsu[k].tiles[j] in GetAllTiles(p)
  {
    assert p.mentsu[k] in p.mentsu;
  }

  /** A hand whose melds and pair are all suited holds no honor. */
  lemma SuitedHand(p: Problem)
    requires forall k, j :: 0 <= k < |p.mentsu| && 0 <= j < |p.mentsu[k].tiles| ==> p.mentsu[k].tiles[j].suit != Honor
    requires p.jantou.first.suit != Honor && p.jantou.second.suit != Honor
    ensures forall t :: t in GetAllTiles(p) ==> t.suit != Honor
  {
    forall t | t in GetAllTiles(p) ensures t.suit != Honor {
      if t != p.jantou.first && t != p.jantou.second {
        var m :| m in p.mentsu && t in m.tiles;
        var k :| 0 <= k < |p.mentsu| && p.mentsu[k] == m;
        var j :| 0 <= j < |m.tiles| && m.tiles[j] == t;
      }
    }
  }

  /** A suited hand with tiles of two suits is no flush of either kind. */
  lemma TwoSuitsNoFlush(p: Problem, a: nat, b: nat)
    requires forall t :: t in GetAllTiles(p) ==> t.suit != Honor
    requires a < |p.mentsu| && b < |p.mentsu| && p.mentsu[a].tiles != [] && p.mentsu[b].tiles != []
    requires p.mentsu[a].tiles[0].suit != p.mentsu[b].tiles[0].suit
    ensures !CheckHonitsu(p) && !CheckChinitsu(p)
  {
    var tiles := GetAllTiles(p);
    MeldTileInHand(p, a, 0);
    MeldTileInHand(p, b, 0);
    var suits := NumberSuits(tiles);
    var sa := p.mentsu[a].tiles[0].suit;
    assert sa in suits && p.mentsu[b].tiles[0].suit in suits;
    SingletonSet(suits, sa);
  }

  /** Sequences that all start on different tiles hold no identical pair. */
  lemma DistinctRunsNoPeikou(p: Problem)
    requires forall k :: 0 <= k < |p.mentsu| ==> p.mentsu[k].kind == Shuntsu
    requires forall i, j :: 0 <= i < j < |p.mentsu| ==> !IsSameTile(p.mentsu[i].tiles[0], p.mentsu[j].tiles[0])
    ensures !CheckIipeikou(p) && !CheckRyanpeikou(p)
  {
    OfKindsAll(p.mentsu, {Shuntsu});
    if CheckRyanpeikou(p) {
      RyanpeikouShapeHasIipeikouShape(p);
    }
  }

  /** Sequences whose pin and sou starts differ and none of which starts at
      7 give neither the three-colour run nor the straight. */
  lemma RunsNoSanshokuNoIttsu(p: Problem)
    requires forall k :: 0 <= k < |p.mentsu| ==> p.mentsu[k].kind == Shuntsu && p.mentsu[k].tiles[0].value != 7
    requires forall i, j :: 0 <= i < |p.mentsu| && 0 <= j < |p.mentsu|
                            && p.mentsu[i].tiles[0].suit == Pin && p.mentsu[j].tiles[0].suit == Sou ==>
                              p.mentsu[i].tiles[0].value != p.mentsu[j].tiles[0].value
    ensures !CheckSanshokuDoujun(p) && !CheckIttsu(p)
  {
    OfKindsAll(p.mentsu, {Shuntsu});
  }

  lemma {:induction false} OfKindsAll(ms: seq<Meld>, kinds: set<MentsuType>)
    requires forall k :: 0 <= k < |ms| ==> ms[k].kind in kinds
    ensures OfKinds(ms, kinds) == ms
    decreases ms
  {
    if ms != [] {
      OfKindsAll(ms[1..], kinds);
      assert ms == [ms[0]] + ms[1..];
    }
  }

  /** A closed ron hand of runs that is pinfu and none of the yaku below is
      awarded riichi and pinfu once each and nothing else. */
  lemma PinfuOnlyAwards(p: Problem, x: YakuId)
    requires p.isMenzen && p.winType == Ron && IsPinfu(p)
    requires |p.mentsu| >= 1 && forall k :: 0 <= k < |p.mentsu| ==> p.mentsu[k].kind == Shuntsu
    requires !CheckTanyao(p) && !CheckHonroutou(p) && !CheckHonitsu(p) && !CheckChinitsu(p)
    requires !CheckIipeikou(p) && !CheckRyanpeikou(p) && !CheckSanshokuDoujun(p) && !CheckIttsu(p)
    requires !CheckChanta(p) && !CheckJunchan(p)
    ensures AwardCount(p, x) == if x == Riichi || x == Pinfu then 1 else 0
  {
    RunsOnly(p);
    if x !in VALUE_HONORS {
      OnlyRiichiPinfuAwarded(p, x);
    }
  }

  lemma OnlyRiichiPinfuAwarded(p: Problem, x: YakuId)
    requires p.isMenzen && p.winType == Ron && IsPinfu(p)
    requires !CheckTanyao(p) && !CheckHonroutou(p) && !CheckHonitsu(p) && !CheckChinitsu(p)
    requires !CheckIipeikou(p) && !CheckRyanpeikou(p) && !CheckSanshokuDoujun(p) && !CheckIttsu(p)
    requires !CheckChanta(p) && !CheckJunchan(p)
    requires !CheckToitoi(p) && !CheckSanankou(p) && !CheckSanshokuDoukou(p)
    requires !CheckSankantsu(p) && !CheckShousangen(p)
    ensures x !in VALUE_HONORS ==> (Awarded(p, x) <==> x == Riichi || x == Pinfu)
  {
  }

  /** The fallback's sequences start on 1m, 4m, 2p and 5s. */
  lemma FallbackStarts()
    ensures var ms := FallbackProblem().mentsu;
            && |ms| == 4
            && (forall k :: 0 <= k < 4 ==> ms[k].kind == Shuntsu && |ms[k].tiles| == 3)
            && ms[0].tiles[0] == Tile(Man, 1, None) && ms[1].tiles[0] == Tile(Man, 4, None)
            && ms[2].tiles[0] == Tile(Pin, 2, None) && ms[3].tiles[0] == Tile(Sou, 5, None)
  {
  }

  lemma FallbackNoPeikou()
    ensures !CheckIipeikou(FallbackProblem()) && !CheckRyanpeikou(FallbackProblem())
  {
    FallbackStarts();
    DistinctRunsNoPeikou(FallbackProblem());
  }

  lemma FallbackNoRunYaku()
    ensures !CheckSanshokuDoujun(FallbackProblem()) && !CheckIttsu(FallbackProblem())
  {
    FallbackStarts();
    RunsNoSanshokuNoIttsu(FallbackProblem());
  }

  lemma FallbackNoSimplesYaku()
    ensures !CheckTanyao(FallbackProblem()) && !CheckHonroutou(FallbackProblem())
  {
    MeldTileInHand(FallbackProblem(), 0, 0);
    MeldTileInHand(FallbackProblem(), 0, 1);
  }

  /** The fallback holds no honor. */
  lemma FallbackSuited()
    ensures forall t :: t in GetAllTiles(FallbackProblem()) ==> t.suit != Honor
  {
    SuitedHand(FallbackProblem());
  }

  lemma FallbackNoFlush()
    ensures !CheckHonitsu(FallbackProblem()) && !CheckChinitsu(FallbackProblem())
  {
    FallbackSuited();
    TwoSuitsNoFlush(FallbackProblem(), 0, 2);
  }

  /** Its one indicator points at south, which the fallback does not hold. */
  lemma FallbackNoDora()
    ensures CountDora(FallbackProblem()) == 0
  {
    FallbackSuited();
    HonorDoraOnSuitedHand(GetAllTiles(FallbackProblem()), Tile(Honor, 1, Some(Ton)));
  }

  /** A hand without honors holds no dora for an honor indicator. */
  lemma HonorDoraOnSuitedHand(tiles: seq<Tile>, indicator: Tile)
    requires forall t :: t in tiles ==> t.suit != Honor
    requires indicator.suit == Honor
    ensures CountDoraIn(tiles, [indicator]) == 0
  {
    assert [indicator][1..] == [];
    assert GetDoraFromIndicator(indicator).suit == Honor;
  }

  /** Riichi and pinfu once each on a closed hand make two han. */
  lemma RiichiPinfuHan(f: YakuId -> nat)
    requires forall x :: f(x) == if x == Riichi || x == Pinfu then 1 else 0
    ensures HanSum(f, true, 0) == 2
  {
    PastPinfuZero(f);
    HanSumZeroFrom(f, true, 4);
    FirstFourHan(f);
  }

  lemma PastPinfuZero(f: YakuId -> nat)
    requires forall x :: f(x) == if x == Riichi || x == Pinfu then 1 else 0
    ensures forall i :: 4 <= i < TABLE_SIZE ==> f(IdAt(i)) == 0
  {
    forall i | 4 <= i < TABLE_SIZE ensures f(IdAt(i)) == 0 {
      IdAtPastPinfu(i);
    }
  }

  /** The table lists riichi, menzen tsumo, tanyao and pinfu first. */
  lemma FirstFourHan(f: YakuId -> nat)
    requires f(Riichi) == 1 && f(MenzenTsumo) == 0 && f(Tanyao) == 0 && f(Pinfu) == 1
    ensures HanSum(f, true, 0) == 2 + HanSum(f, true, 4)
  {
    ClosedHanOfSevenPairsYaku();
    assert AppliedHan(Pinfu, true) == Some(1);
    assert HanAt(f, true, 0) == 1 && HanAt(f, true, 1) == 0 && HanAt(f, true, 2) == 0 && HanAt(f, true, 3) == 1;
  }

  lemma IdAtPastPinfu(i: nat)
    requires 4 <= i < TABLE_SIZE
    ensures IdAt(i) != Riichi && IdAt(i) != Pinfu
  {
  }

  /** Nothing counted from position `k` on adds nothing. */
  lemma {:induction false} HanSumZeroFrom(f: YakuId -> nat, isMenzen: bool, k: nat)
    requires forall i :: k <= i < TABLE_SIZE ==> f(IdAt(i)) == 0
    ensures HanSum(f, isMenzen, k) == 0
    decreases TABLE_SIZE - k
  {
    if k < TABLE_SIZE {
      HanSumZeroFrom(f, isMenzen, k + 1);
    }
  }

  /** Every condition `PinfuOnlyAwards` asks of a hand holds of the
      fallback. */
  lemma FallbackChecks()
    ensures var p := FallbackProblem();
            && p.isMenzen && p.winType == Ron && IsPinfu(p)
            && |p.mentsu| >= 1 && (forall k :: 0 <= k < |p.mentsu| ==> p.mentsu[k].kind == Shuntsu)
            && !CheckTanyao(p) && !CheckHonroutou(p) && !CheckHonitsu(p) && !CheckChinitsu(p)
            && !CheckIipeikou(p) && !CheckRyanpeikou(p) && !CheckSanshokuDoujun(p) && !CheckIttsu(p)
            && !CheckChanta(p) && !CheckJunchan(p)
  {
    FallbackShape();
    FallbackStarts();
    FallbackNoSimplesYaku();
    FallbackNoFlush();
    FallbackNoPeikou();
    FallbackNoRunYaku();
    FallbackNoChanta();
  }

  lemma FallbackNoChanta()
    ensures !CheckChanta(FallbackProblem()) && !CheckJunchan(FallbackProblem())
  {
    assert !ChantaMeld(FallbackProblem().mentsu[1]);
  }

  /** The fallback is awarded riichi and pinfu once each and nothing else. */
  lemma FallbackAwards(x: YakuId)
    ensures AwardCount(FallbackProblem(), x) == if x == Riichi || x == Pinfu then 1 else 0
  {
    FallbackChecks();
    PinfuOnlyAwards(FallbackProblem(), x);
  }

  lemma FallbackAwardsAll(f: YakuId -> nat)
    requires forall x :: f(x) == if x == Riichi || x == Pinfu then 1 else 0
    ensures forall x :: AwardCount(FallbackProblem(), x) == f(x)
  {
    forall x ensures AwardCount(FallbackProblem(), x) == f(x) {
      FallbackAwards(x);
    }
  }

  /** A concealed standard hand awarded riichi and pinfu once each, and
      nothing else, with no dora, is judged at 2 han. */
  lemma RiichiPinfuTotal(p: Problem, f: YakuId -> nat)
    requires !IsChiitoitsuProblem(p) && p.isMenzen && CountDora(p) == 0
    requires forall x :: f(x) == if x == Riichi || x == Pinfu then 1 else 0
    requires forall x :: AwardCount(p, x) == f(x)
    ensures CalculateYaku(p).totalHan == 2
  {
    TotalFromAwards(p, f);
    RiichiPinfuHan(f);
  }

  /** The fallback's judged total is the 2 han it declares. */
  lemma FallbackTotal()
    ensures CalculateYaku(FallbackProblem()).totalHan == 2
  {
    var f: YakuId -> nat := x => if x == Riichi || x == Pinfu then 1 else 0;
    FallbackAwardsAll(f);
    FallbackShape();
    FallbackNoDora();
    RiichiPinfuTotal(FallbackProblem(), f);
  }

  /** So the fallback is an accepted problem like every other the
      generators return. */
  lemma FallbackAccepted()
    ensures Accepted(FallbackGenerated())
  {
    FallbackShape();
    FallbackYaku();
    FallbackTotal();
  }

  /** At its declared 2 han and 30 fu the fallback is a 2000-point
      non-dealer ron. */
  lemma FallbackScore()
    ensures CalculateFu(FallbackProblem()).total == 30
    ensures CalculateScore(FallbackProblem()).ronPoints == Some(2000)
  {
    FallbackShape();
    assert Pow2(4) == 16;
  }

  /** The declared wait disagrees with the position rule: 3m completes 123m
      from its high end, which the rule (and the leftover 12m shape, waiting
      on 3m alone) calls an edge wait. */
  lemma FallbackWaitDisagrees()
    ensures var p := FallbackProblem();
            && p.winningTile == p.mentsu[0].tiles[2]
            && p.waitType == Ryanmen
            && GetWaitTypeFromShuntsuPosition(p.mentsu[0].tiles[0].value, 2) == Penchan
            && CompletionCount(1, 2) == 1
  {
  }

  // ---------------------------------------------------------------------------
  // The generators

  /** Retries of `generateProblem` before the fallback. */
  const MAX_RETRY_COUNT: nat := 10

  /** Tries of `generateProblemWithYaku` before it hands over. */
  const MAX_YAKU_ATTEMPTS: nat := 100

  /** The rarely forced yaku and their rates, in the order they are tried. */
  function RareYakuRates(): seq<(YakuId, real)>
  {
    [(Ittsu, 0.05), (SanshokuDoujun, 0.05), (SanshokuDoukou, 0.05), (Ryanpeikou, 0.05),
     (Junchan, 0.02), (Chanta, 0.02), (Shousangen, 0.02), (Sankantsu, 0.02),
     (Honroutou, 0.01), (Chinitsu, 0.01)]
  }

  /** The first rare yaku whose draw falls below its rate. */
  function FirstRare(draws: seq<real>, table: seq<(YakuId, real)>): (r: Option<YakuId>)
    ensures r.Some? ==> exists k :: 0 <= k < |draws| && k < |table| && r.value == table[k].0 && draws[k] < table[k].1
    ensures r.None? ==> forall k :: 0 <= k < |draws| && k < |table| ==> !(draws[k] < table[k].1)
  {
    if draws == [] || table == [] then None
    else if RandomBool(draws[0], table[0].1) then Some(table[0].0)
    else
      var r := FirstRare(draws[1..], table[1..]);
      assert forall k :: 0 < k < |draws| && k < |table| ==> draws[k] == draws[1..][k - 1] && table[k] == table[1..][k - 1];
      r
  }

  /** The targets with a dedicated hand builder; every other target is
      built as a standard hand and filtered. */
  predicate HasShowcase(target: YakuId)
  {
    target in {Chanta, Junchan, SanshokuDoujun, Ittsu, Toitoi, Honitsu, Chinitsu, Sanankou,
               Honroutou, SanshokuDoukou, Sankantsu, Shousangen, Ryanpeikou}
  }

  /** The drawn result of a dedicated hand builder: melds, the pair if it
      found one, and the counter it leaves. */
  datatype ShowcaseHand = ShowcaseHand(mentsu: seq<Meld>, jantou: Option<Jantou>, counter: Counter)

  /** The draws of one try of `generateProblemWithYaku`. */
  datatype AttemptDraws = AttemptDraws(
    showcase: ShowcaseHand,
    chiitoitsu: ChiitoitsuDraws,
    hand: HandDraws,
    build: BuildDraws)

  /** A non-seven-pairs try: four melds and a pair are needed, then an
      accepted problem with the target among its yaku. */
  function HandAttempt(target: YakuId, hand: (seq<Meld>, Option<Jantou>, Counter), build: BuildDraws): (r: Option<Generated>)
    ensures r.Some? ==>
              && Accepted(r.value)
              && JudgedOnHand(r.value)
              && Has(r.value.yaku.yakuList, target)
              && |r.value.problem.mentsu| >= 4
              && !IsChiitoitsuProblem(r.value.problem)
  {
    if |hand.0| < 4 || hand.1.None? then None
    else
      match CreateProblemFromHand(hand.0, hand.1.value, hand.2, build)
      case None => None
      case Some(g) =>
        if Has(g.yaku.yakuList, target) then Some(g) else None
  }

  /** One try of `generateProblemWithYaku`: a seven-pairs hand for that
      target, otherwise the target's dedicated hand or a standard one. */
  function YakuAttempt(s: Settings, target: YakuId, a: AttemptDraws): (r: Option<Generated>)
    ensures r.Some? ==> Accepted(r.value) && JudgedOnHand(r.value)
    ensures r.Some? && target == Chiitoitsu ==> IsChiitoitsuProblem(r.value.problem)
    ensures r.Some? && target != Chiitoitsu ==>
              && Has(r.value.yaku.yakuList, target)
              && |r.value.problem.mentsu| >= 4
              && 1 <= r.value.problem.han <= 12
              && !IsChiitoitsuProblem(r.value.problem)
  {
    if target == Chiitoitsu then CreateChiitoitsuProblem(a.chiitoitsu)
    else if HasShowcase(target) then HandAttempt(target, (a.showcase.mentsu, a.showcase.jantou, a.showcase.counter), a.build)
    else HandAttempt(target, BuildStandardHand(s, a.hand), a.build)
  }

  /** How the try loop of `generateProblemWithYaku` ends: with a problem,
      after every try failed, or when the draws ran out first. */
  datatype Search = Found(generated: Generated) | GaveUp | Exhausted

  /** The first result `f` gives among the first `budget` elements. */
  function FirstSome<T, U>(xs: seq<T>, f: T -> Option<U>, budget: nat): (r: Option<U>)
    ensures r.None? <==> forall k :: 0 <= k < |xs| && k < budget ==> f(xs[k]).None?
    ensures r.Some? ==> exists k :: 0 <= k < |xs| && k < budget && f(xs[k]) == r
    decreases budget
  {
    if xs == [] || budget == 0 then None
    else if f(xs[0]).Some? then f(xs[0])
    else
      var rest := FirstSome(xs[1..], f, budget - 1);
      assert forall k :: 0 < k < |xs| ==> xs[k] == xs[1..][k - 1];
      rest
  }

  /** The try loop: the first success among the first hundred tries. */
  function YakuSearch(s: Settings, target: YakuId, attempts: seq<AttemptDraws>): (r: Search)
    ensures r.Found? ==>
              exists k :: 0 <= k < |attempts| && k < MAX_YAKU_ATTEMPTS
                          && YakuAttempt(s, target, attempts[k]) == Some(r.generated)
    ensures r.GaveUp? ==>
              |attempts| >= MAX_YAKU_ATTEMPTS
              && forall k :: 0 <= k < MAX_YAKU_ATTEMPTS ==> YakuAttempt(s, target, attempts[k]).None?
    ensures r.Exhausted? ==>
              |attempts| < MAX_YAKU_ATTEMPTS
              && forall k :: 0 <= k < |attempts| ==> YakuAttempt(s, target, attempts[k]).None?
  {
    match FirstSome(attempts, a => YakuAttempt(s, target, a), MAX_YAKU_ATTEMPTS)
    case Some(g) => Found(g)
    case None => if |attempts| >= MAX_YAKU_ATTEMPTS then GaveUp else Exhausted
  }

  /** What a found problem satisfies: it is accepted and, for a target other
      than seven pairs, a four-meld hand holding the target. */
  lemma FoundHoldsTarget(s: Settings, target: YakuId, attempts: seq<AttemptDraws>)
    requires YakuSearch(s, target, attempts).Found?
    ensures var g := YakuSearch(s, target, attempts).generated;
            && Accepted(g)
            && JudgedOnHand(g)
            && (target == Chiitoitsu ==> IsChiitoitsuProblem(g.problem))
            && (target != Chiitoitsu ==> Has(g.yaku.yakuList, target)
                                         && |g.problem.mentsu| >= 4
                                         && 1 <= g.problem.han <= 12)
  {
    var g := YakuSearch(s, target, attempts).generated;
    var k :| 0 <= k < |attempts| && k < MAX_YAKU_ATTEMPTS && YakuAttempt(s, target, attempts[k]) == Some(g);
  }

  /** Every draw `generateProblem` consults, with the draws of the call it
      makes next: `retry` for its own retry, `afterAttempts` for the
      `generateProblem` call `generateProblemWithYaku` hands over to. */
  datatype Draws = Draws(
    chiitoitsuDraw: real,
    chiitoitsu: ChiitoitsuDraws,
    rareDraws: seq<real>,
    yakuAttempts: seq<AttemptDraws>,
    afterAttempts: Option<Draws>,
    hand: HandDraws,
    build: BuildDraws,
    retry: Option<Draws>)

  /** The standard branch of `generateProblem`: a standard hand, with a
      1m pair when no pair could be drawn, made into a problem. */
  function StandardAttempt(s: Settings, hand: HandDraws, build: BuildDraws): (r: Option<Generated>)
    ensures r.Some? ==>
              && Accepted(r.value)
              && JudgedOnHand(r.value)
              && |r.value.problem.mentsu| <= 4
              && OpenCount(r.value.problem.mentsu) <= 2
              && (r.value.problem.isMenzen <==> forall i :: 0 <= i < |r.value.problem.mentsu| ==> !r.value.problem.mentsu[i].isOpen)
  {
    var h := BuildStandardHand(s, hand);
    var jantou := if h.1.Some? then h.1.value else Jantou(CreateTile(Man, 1), CreateTile(Man, 1));
    CreateProblemFromHand(h.0, jantou, h.2, build)
  }

  /** `generateProblem`: the fallback once the retries are used up; else a
      seven-pairs problem one time in twenty; else a forced rare yaku; else
      a standard hand, retried when rejected. Every problem comes with its
      yaku result. `None` stands for draws that end before the generator
      does. */
  function GenerateProblem(difficulty: Difficulty, retryCount: nat, d: Draws): (r: Option<Generated>)
    ensures retryCount >= MAX_RETRY_COUNT ==> r == Some(FallbackGenerated())
    ensures r.Some? ==> Accepted(r.value)
    ensures r.Some? ==> r.value == FallbackGenerated() || JudgedOnHand(r.value)
    decreases d, 1
  {
    if retryCount >= MAX_RETRY_COUNT then
      FallbackAccepted();
      Some(FallbackGenerated())
    else if RandomBool(d.chiitoitsuDraw, 0.05) && CreateChiitoitsuProblem(d.chiitoitsu).Some? then
      CreateChiitoitsuProblem(d.chiitoitsu)
    else
      match FirstRare(d.rareDraws, RareYakuRates())
      case Some(id) => GenerateProblemWithYaku(difficulty, id, d)
      case None =>
        match StandardAttempt(SettingsOf(difficulty), d.hand, d.build)
        case Some(g) => Some(g)
        case None =>
          if d.retry.Some? then GenerateProblem(difficulty, retryCount + 1, d.retry.value) else None
  }

  /** `generateProblemWithYaku`: up to a hundred tries at a problem holding
      the target; after that, a fresh `generateProblem`. */
  function GenerateProblemWithYaku(difficulty: Difficulty, target: YakuId, d: Draws): (r: Option<Generated>)
    ensures r.Some? ==> Accepted(r.value)
    ensures r.Some? ==> r.value == FallbackGenerated() || JudgedOnHand(r.value)
    ensures YakuSearch(SettingsOf(difficulty), target, d.yakuAttempts).Found? ==>
              var g := YakuSearch(SettingsOf(difficulty), target, d.yakuAttempts).generated;
              && r == Some(g)
              && Accepted(g) && JudgedOnHand(g)
              && (target != Chiitoitsu ==> Has(g.yaku.yakuList, target))
    decreases d, 0
  {
    match YakuSearch(SettingsOf(difficulty), target, d.yakuAttempts)
    case Found(g) =>
      FoundHoldsTarget(SettingsOf(difficulty), target, d.yakuAttempts);
      Some(g)
    case GaveUp =>
      if d.afterAttempts.Some? then GenerateProblem(difficulty, 0, d.afterAttempts.value) else None
    case Exhausted => None
  }
}
