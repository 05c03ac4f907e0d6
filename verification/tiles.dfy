/** Tile primitives: construction, classification, comparison and the compact
    "123m456p11z" notation. */
module Tiles {
  import opened Types

  /** The honor kind of an honor value. The engine numbers the dragons
      5 = hatsu, 6 = haku, 7 = chun; any other value has no kind. */
  function HonorOfValue(value: int): Option<HonorType>
  {
    match value
    case 1 => Some(Ton)
    case 2 => Some(Nan)
    case 3 => Some(Sha)
    case 4 => Some(Pei)
    case 5 => Some(Hatsu)
    case 6 => Some(Haku)
    case 7 => Some(Chun)
    case _ => None
  }

  /** The value an honor kind is written with; the inverse of `HonorOfValue`. */
  function HonorValue(h: HonorType): (v: int)
    ensures 1 <= v <= 7
  {
    match h
    case Ton => 1
    case Nan => 2
    case Sha => 3
    case Pei => 4
    case Hatsu => 5
    case Haku => 6
    case Chun => 7
  }

  lemma HonorValueRoundTrip(h: HonorType)
    ensures HonorOfValue(HonorValue(h)) == Some(h)
  {
  }

  /** Builds a tile; the honor kind is set for the honor suit only, and only
      for a value that has one. */
  function CreateTile(suit: Suit, value: int): (t: Tile)
    ensures t.suit == suit && t.value == value
    ensures t.honorType.Some? <==> suit == Honor && 1 <= value <= 7
    ensures t.honorType.Some? ==> HonorValue(t.honorType.value) == value
  {
    Tile(suit, value, if suit == Honor then HonorOfValue(value) else None)
  }

  /** The dragons carry the kinds the engine's numbering gives them. */
  lemma CreateTileDragons()
    ensures CreateTile(Honor, 5).honorType == Some(Hatsu)
    ensures CreateTile(Honor, 6).honorType == Some(Haku)
    ensures CreateTile(Honor, 7).honorType == Some(Chun)
    ensures forall v :: CreateTile(Man, v).honorType.None?
  {
  }

  /** Terminal or honor. */
  predicate IsYaochuhai(t: Tile)
  {
    t.suit == Honor || t.value == 1 || t.value == 9
  }

  /** Simple: a suited 2..8. */
  predicate IsChunchanhai(t: Tile)
  {
    t.suit != Honor && 2 <= t.value <= 8
  }

  /** For a tile with an in-range value, exactly one of the two holds. */
  lemma YaochuXorChunchan(t: Tile)
    requires ValidTile(t)
    ensures IsYaochuhai(t) <==> !IsChunchanhai(t)
  {
  }

  /** Suit and value equality; the honor kind is ignored. */
  predicate IsSameTile(a: Tile, b: Tile)
  {
    a.suit == b.suit && a.value == b.value
  }

  lemma IsSameTileEquivalence(a: Tile, b: Tile, c: Tile)
    ensures IsSameTile(a, a)
    ensures IsSameTile(a, b) <==> IsSameTile(b, a)
    ensures IsSameTile(a, b) && IsSameTile(b, c) ==> IsSameTile(a, c)
    ensures IsSameTile(a, b) <==> a.(honorType := None) == b.(honorType := None)
  {
  }

  function SuitOrder(s: Suit): nat
  {
    match s
    case Man => 0
    case Pin => 1
    case Sou => 2
    case Honor => 3
  }

  /** Display order: man < pin < sou < honor, then ascending value. */
  predicate SortsBefore(a: Tile, b: Tile)
  {
    SuitOrder(a.suit) < SuitOrder(b.suit) || (a.suit == b.suit && a.value < b.value)
  }

  /** The comparator used to sort a hand for display: negative, zero or
      positive as `a` sorts before, level with or after `b`. */
  function CompareTiles(a: Tile, b: Tile): (r: int)
    ensures r == 0 <==> IsSameTile(a, b)
    ensures r < 0 <==> SortsBefore(a, b)
    ensures r > 0 <==> SortsBefore(b, a)
  {
    if a.suit != b.suit then SuitOrder(a.suit) - SuitOrder(b.suit) else a.value - b.value
  }

  /** Swapping the arguments flips the sign, and "not after" is transitive,
      so the comparator is a total preorder. */
  lemma CompareTilesOrder(a: Tile, b: Tile, c: Tile)
    ensures CompareTiles(a, b) == -CompareTiles(b, a)
    ensures CompareTiles(a, b) <= 0 && CompareTiles(b, c) <= 0 ==> CompareTiles(a, c) <= 0
  {
  }

  /** Value honor: a dragon, the seat wind or the round wind. */
  predicate IsYakuhai(t: Tile, seatWind: int, roundWind: int)
  {
    if t.suit != Honor then false
    else if t.value >= 5 then true
    else if t.value == seatWind then true
    else t.value == roundWind
  }

  /** A wind that is both the seat wind and the round wind. */
  predicate IsDoubleWind(t: Tile, seatWind: int, roundWind: int)
  {
    if t.suit != Honor then false
    else if t.value > 4 then false
    else t.value == seatWind && t.value == roundWind
  }

  lemma YakuhaiFacts(t: Tile, seatWind: int, roundWind: int)
    ensures t.suit != Honor ==> !IsYakuhai(t, seatWind, roundWind)
    ensures t.suit == Honor && 5 <= t.value ==> IsYakuhai(t, seatWind, roundWind)
    ensures IsDoubleWind(t, seatWind, roundWind) ==> IsYakuhai(t, seatWind, roundWind)
    ensures IsDoubleWind(t, seatWind, roundWind) <==>
              t.suit == Honor && t.value <= 4 && t.value == seatWind && t.value == roundWind
  {
  }

  // ---------------------------------------------------------------------------
  // Compact notation: digits 1..9 followed by a suit letter m, p, s or z.

  predicate IsDigit(c: char)
  {
    '1' <= c <= '9'
  }

  function DigitValue(c: char): int
  {
    c as int - '0' as int
  }

  function SuitLetter(c: char): Option<Suit>
  {
    match c
    case 'm' => Some(Man)
    case 'p' => Some(Pin)
    case 's' => Some(Sou)
    case 'z' => Some(Honor)
    case _ => None
  }

  /** The first suit letter of `s`, if any. */
  function NextSuit(s: string): Option<Suit>
  {
    if s == [] then None
    else if SuitLetter(s[0]).Some? then SuitLetter(s[0])
    else NextSuit(s[1..])
  }

  /** Reference reading of the notation: each digit yields one tile, in input
      order, of the suit named by the first suit letter after it; a digit with
      no suit letter after it, and every other character, yields nothing. */
  function Emitted(s: string): seq<Tile>
  {
    if s == [] then []
    else
      (if IsDigit(s[0]) && NextSuit(s[1..]).Some?
       then [CreateTile(NextSuit(s[1..]).value, DigitValue(s[0]))]
       else [])
      + Emitted(s[1..])
  }

  /** The tiles a suit letter emits for the digits collected before it. */
  function Flush(suit: Suit, values: seq<int>): (r: seq<Tile>)
    ensures |r| == |values|
    ensures forall i :: 0 <= i < |values| ==> r[i] == CreateTile(suit, values[i])
  {
    if values == [] then [] else [CreateTile(suit, values[0])] + Flush(suit, values[1..])
  }

  lemma FlushSnoc(suit: Suit, values: seq<int>, v: int)
    ensures Flush(suit, values + [v]) == Flush(suit, values) + [CreateTile(suit, v)]
  {
  }

  /** What the digits still waiting for a suit letter will emit. */
  function Pending(rest: string, values: seq<int>): seq<Tile>
  {
    match NextSuit(rest)
    case Some(suit) => Flush(suit, values)
    case None => []
  }

  lemma ConsFacts(c: char, rest: string)
    ensures NextSuit([c] + rest) == if SuitLetter(c).Some? then SuitLetter(c) else NextSuit(rest)
    ensures Emitted([c] + rest) ==
              (if IsDigit(c) && NextSuit(rest).Some? then [CreateTile(NextSuit(rest).value, DigitValue(c))] else [])
              + Emitted(rest)
  {
    assert ([c] + rest)[0] == c;
    assert ([c] + rest)[1..] == rest;
  }

  /** How one character moves the parser's pending digits along. */
  lemma ParseStep(c: char, rest: string, values: seq<int>)
    ensures IsDigit(c) ==>
              Pending([c] + rest, values) + Emitted([c] + rest)
              == Pending(rest, values + [DigitValue(c)]) + Emitted(rest)
    ensures !IsDigit(c) && SuitLetter(c).Some? ==>
              Pending([c] + rest, values) + Emitted([c] + rest)
              == Flush(SuitLetter(c).value, values) + (Pending(rest, []) + Emitted(rest))
    ensures !IsDigit(c) && SuitLetter(c).None? ==>
              Pending([c] + rest, values) + Emitted([c] + rest) == Pending(rest, values) + Emitted(rest)
  {
    ConsFacts(c, rest);
    if IsDigit(c) {
      assert SuitLetter(c).None?;
      match NextSuit(rest)
      case Some(s) =>
        FlushSnoc(s, values, DigitValue(c));
      case None =>
    }
  }

  /** The parser: collects digits and emits them when a suit letter arrives. */
  method ParseTileNotation(notation: string) returns (tiles: seq<Tile>)
    ensures tiles == Emitted(notation)
    ensures |tiles| <= |notation|
    ensures notation == "" ==> tiles == []
  {
    tiles := [];
    var numbers: seq<int> := [];
    var i := 0;
    while i < |notation|
      invariant 0 <= i <= |notation|
      invariant tiles + (Pending(notation[i..], numbers) + Emitted(notation[i..])) == Emitted(notation)
    {
      var c := notation[i];
      assert notation[i..] == [c] + notation[i + 1..];
      ParseStep(c, notation[i + 1..], numbers);
      if IsDigit(c) {
        numbers := numbers + [DigitValue(c)];
      } else if SuitLetter(c).Some? {
        tiles := tiles + Flush(SuitLetter(c).value, numbers);
        numbers := [];
      }
      i := i + 1;
    }
    assert notation[i..] == [];
    EmittedLength(notation);
  }

  lemma {:induction false} EmittedLength(s: string)
    ensures |Emitted(s)| <= |s|
  {
    if s != [] {
      EmittedLength(s[1..]);
    }
  }

  /** The one-tile-per-group notation of a tile list. */
  function Notation(tiles: seq<Tile>): string
    requires forall i :: 0 <= i < |tiles| ==> 1 <= tiles[i].value <= 9
  {
    if tiles == [] then ""
    else
      [('0' as int + tiles[0].value) as char, SuitChar(tiles[0].suit)] + Notation(tiles[1..])
  }

  function SuitChar(s: Suit): (c: char)
    ensures SuitLetter(c) == Some(s)
  {
    match s
    case Man => 'm'
    case Pin => 'p'
    case Sou => 's'
    case Honor => 'z'
  }

  /** Reading back the notation of tiles made by `CreateTile` with values
      1..9 gives the same tiles. */
  lemma {:induction false} NotationRoundTrip(tiles: seq<Tile>)
    requires forall i :: 0 <= i < |tiles| ==> 1 <= tiles[i].value <= 9
    requires forall i :: 0 <= i < |tiles| ==> tiles[i] == CreateTile(tiles[i].suit, tiles[i].value)
    ensures Emitted(Notation(tiles)) == tiles
  {
    if tiles != [] {
      var t := tiles[0];
      var rest := Notation(tiles[1..]);
      var d := ('0' as int + t.value) as char;
      var sc := SuitChar(t.suit);
      assert Notation(tiles) == [d] + ([sc] + rest);
      assert !IsDigit(sc) && IsDigit(d) && DigitValue(d) == t.value;
      ConsFacts(sc, rest);
      assert Emitted([sc] + rest) == Emitted(rest);
      ConsFacts(d, [sc] + rest);
      assert Emitted(Notation(tiles)) == [t] + Emitted(rest);
      NotationRoundTrip(tiles[1..]);
      assert tiles == [t] + tiles[1..];
    }
  }
}
