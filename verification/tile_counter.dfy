/** The generator's tile counter: how many copies of each tile kind a hand
    under construction already uses, with at most four of each kind. */
module TileCounter {
  import opened Types
  import opened Tiles

  /** A tile kind is counted under its suit and value; the honor kind plays
      no part. */
  type Key = (Suit, int)

  function KeyOf(t: Tile): Key
  {
    (t.suit, t.value)
  }

  lemma KeyOfSameTile(a: Tile, b: Tile)
    ensures KeyOf(a) == KeyOf(b) <==> IsSameTile(a, b)
  {
  }

  /** Copies of each tile kind in a set. */
  const COPIES: nat := 4

  datatype Counter = Counter(counts: map<Key, nat>)

  /** A fresh counter: nothing used yet. */
  const EMPTY: Counter := Counter(map[])

  /** Copies of `t`'s kind already used; an unseen kind counts zero. */
  function GetCount(c: Counter, t: Tile): nat
  {
    if KeyOf(t) in c.counts then c.counts[KeyOf(t)] else 0
  }

  /** `n` more copies of `t` still fit within four. */
  predicate CanUse(c: Counter, t: Tile, n: nat)
  {
    GetCount(c, t) + n <= COPIES
  }

  /** Records `n` more copies of `t`'s kind, whether or not they fit. */
  function Use(c: Counter, t: Tile, n: nat): (r: Counter)
    ensures GetCount(r, t) == GetCount(c, t) + n
    ensures forall u :: !IsSameTile(u, t) ==> GetCount(r, u) == GetCount(c, u)
  {
    Counter(c.counts[KeyOf(t) := GetCount(c, t) + n])
  }

  /** No kind is used more than four times. */
  ghost predicate WithinLimit(c: Counter)
  {
    forall t :: GetCount(c, t) <= COPIES
  }

  lemma EmptyCounter(t: Tile, n: nat)
    ensures GetCount(EMPTY, t) == 0
    ensures CanUse(EMPTY, t, n) <==> n <= COPIES
    ensures WithinLimit(EMPTY)
  {
  }

  /** Using copies that fit keeps every kind within four, and what is left
      for a kind afterwards is what was left before minus what was used. */
  lemma UseKeepsLimit(c: Counter, t: Tile, n: nat, m: nat)
    requires WithinLimit(c) && CanUse(c, t, n)
    ensures WithinLimit(Use(c, t, n))
    ensures CanUse(Use(c, t, n), t, m) <==> CanUse(c, t, n + m)
  {
    var r := Use(c, t, n);
    forall u ensures GetCount(r, u) <= COPIES {
      if !IsSameTile(u, t) {
        assert GetCount(r, u) == GetCount(c, u);
      } else {
        assert KeyOf(u) == KeyOf(t);
      }
    }
  }

  /** Copies of `u`'s kind among `ts`. */
  function Occurrences(ts: seq<Tile>, u: Tile): (r: nat)
    ensures r <= |ts|
  {
    if ts == [] then 0 else (if IsSameTile(ts[0], u) then 1 else 0) + Occurrences(ts[1..], u)
  }

  /** `after` is `before` with the tiles of `ts` recorded, and nothing else. */
  ghost predicate Adds(before: Counter, after: Counter, ts: seq<Tile>)
  {
    forall u :: GetCount(after, u) == GetCount(before, u) + Occurrences(ts, u)
  }

  /** `n` copies of one tile. */
  function Copies(t: Tile, n: nat): (r: seq<Tile>)
    ensures |r| == n
    ensures forall i :: 0 <= i < n ==> r[i] == t
  {
    if n == 0 then [] else [t] + Copies(t, n - 1)
  }

  lemma {:induction false} OccurrencesOfCopies(t: Tile, n: nat, u: Tile)
    ensures Occurrences(Copies(t, n), u) == if IsSameTile(t, u) then n else 0
  {
    if n > 0 {
      assert Copies(t, n)[1..] == Copies(t, n - 1);
      OccurrencesOfCopies(t, n - 1, u);
    }
  }

  /** Using `n` at once records `n` copies of the tile. */
  lemma UseRecordsCopies(c: Counter, t: Tile, n: nat)
    ensures Adds(c, Use(c, t, n), Copies(t, n))
  {
    forall u ensures GetCount(Use(c, t, n), u) == GetCount(c, u) + Occurrences(Copies(t, n), u) {
      OccurrencesOfCopies(t, n, u);
      if IsSameTile(t, u) {
        assert KeyOf(t) == KeyOf(u);
      }
    }
  }

  /** Uses one copy of each tile in turn. */
  function UseEach(c: Counter, ts: seq<Tile>): (r: Counter)
    ensures Adds(c, r, ts)
    decreases |ts|
  {
    if ts == [] then c
    else
      var next := Use(c, ts[0], 1);
      var r := UseEach(next, ts[1..]);
      assert Adds(c, r, ts) by {
        forall u ensures GetCount(r, u) == GetCount(c, u) + Occurrences(ts, u) {
          assert GetCount(r, u) == GetCount(next, u) + Occurrences(ts[1..], u);
          if IsSameTile(ts[0], u) {
            assert KeyOf(ts[0]) == KeyOf(u);
          } else {
            assert !IsSameTile(u, ts[0]);
          }
        }
      }
      r
  }

  /** Recording tiles keeps the counter within four when, for every kind
      among them, the copies recorded fit on top of those already used. */
  lemma AddsKeepsLimit(c: Counter, r: Counter, ts: seq<Tile>)
    requires WithinLimit(c) && Adds(c, r, ts)
    requires forall u :: Occurrences(ts, u) > 0 ==> GetCount(c, u) + Occurrences(ts, u) <= COPIES
    ensures WithinLimit(r)
  {
    forall u ensures GetCount(r, u) <= COPIES {
      assert GetCount(r, u) == GetCount(c, u) + Occurrences(ts, u);
    }
  }
}
