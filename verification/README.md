# Riichi mahjong scoring drill: a verified model of the scoring engine

This project models the scoring engine of the mahjong-drill trainer. The
engine takes a winning hand (a `Problem`: four melds and a pair, or seven
pairs, with the win type, dealer flag, winds and dora indicators). From it,
the engine:

- judges the hand's yaku (hand patterns) and counts its dora;
- itemises its fu (minipoints);
- turns fu and han into the points the winner collects.

It also models the random problem generator that builds such hands. Every
random choice is an explicit parameter, a pre-drawn number or a list of
them. So each generator function is a pure function of its draws.

One Dafny module per source file:

| module | file | source |
|---|---|---|
| `Types` | `types.dfy` | `src/logic/types.ts` |
| `Tiles` | `tiles.dfy` | `src/logic/tiles.ts` |
| `YakuList` | `yaku_list.dfy` | `src/logic/yaku-list.ts` |
| `FuCalculator` | `fu_calculator.dfy` | `src/logic/fu-calculator.ts` |
| `YakuCalculator` | `yaku_calculator.dfy` | `src/logic/yaku-calculator.ts` |
| `ScoreCalculator` | `score_calculator.dfy` | `src/logic/score-calculator.ts` |
| `TileCounter` | `tile_counter.dfy` | the `TileCounter` class of `src/logic/problem-generator.ts` |
| `ProblemGenerator` | `problem_generator.dfy` | the rest of `src/logic/problem-generator.ts` |

How the model represents the source:

- **Honors.** They are numbered as the code numbers them: 1 east, 2 south,
  3 west, 4 north, 5 hatsu, 6 haku, 7 chun. The mapping in
  `src/logic/tiles.ts:19-27` and the value-honor steps in
  `src/logic/yaku-calculator.ts:195-198` (5 adds hatsu, 6 haku, 7 chun) use
  this order, and the model follows them. Two comments disagree: the one on
  `src/logic/types.ts:10` and the one on `src/logic/yaku-calculator.ts:485`
  list the dragons as haku, hatsu, chun. The small-three-dragons check
  (`src/logic/yaku-calculator.ts:483-506`) only asks for values 5 to 7, so
  the order does not matter there.
- **Melds.** A meld is a `Mentsu` whose tile count matches its kind: 3
  tiles, or 4 for a quad. Every calculator reads `tiles[0]`, and the
  generator reads `tiles[0..2]` of a sequence.
- **Seven pairs.** The `isChiitoitsu` flag and the optional `toitsu` list
  become a `HandShape`.
- **Randomness.**
  - `randomInt(min, max)` and `randomChoice` take a pre-drawn `nat`,
    reduced into the range.
  - `randomBool(p)` and the bare `Math.random()` comparisons take a
    pre-drawn `real`.
  - `shuffleArray` is Fisher-Yates driven by a list of pre-drawn indices.
- **Recursion.** The mutual recursion between `generateProblem` and
  `generateProblemWithYaku` runs on a finite tree of draws (`Draws`). A
  result of `None` means the draws ran out before the generator stopped.
  The source itself need not stop: after a hundred failed tries
  `generateProblemWithYaku` calls `generateProblem` afresh with the retry
  count back at 0 (`src/logic/problem-generator.ts:1696`), and the hand
  builders loop until their draws succeed (for example the `while` loops at
  `src/logic/problem-generator.ts:1062`, `1133`, `1241` and `1358`). The
  model promises what it returns whenever it returns.

## Model

| member | source | states |
|---|---|---|
| Tiles.HonorValue | src/logic/tiles.ts:19-27 | every honor kind is written with a value from 1 to 7 |
| Tiles.HonorValueRoundTrip | src/logic/tiles.ts:19-27 | the value-to-honor mapping sends each kind's value back to that kind, so no two kinds share a value |
| Tiles.CreateTile | src/logic/tiles.ts:30-36 | a created tile keeps its suit and value; it carries an honor kind exactly when it is an honor with a mapped value 1..7, and that kind is the one the value stands for |
| Tiles.CreateTileDragons | src/logic/tiles.ts:19-36 | honor 5 is hatsu, 6 is haku and 7 is chun; a suited tile never carries an honor kind |
| Tiles.IsYaochuhai | src/logic/tiles.ts:39-42 | a terminal or honor is any honor, or a tile of value 1 or 9; the partner lemma `YaochuXorChunchan` makes it the exact opposite of a simple on in-range tiles |
| Tiles.IsChunchanhai | src/logic/tiles.ts:45-48 | a simple is a suited tile of value 2 to 8 |
| Tiles.YaochuXorChunchan | src/logic/tiles.ts:39-48 | on an in-range tile, being a terminal-or-honor and being a simple are exact opposites |
| Tiles.IsSameTile | src/logic/tiles.ts:51-53 | two tiles are the same when suit and value agree, whatever their honor kind; `IsSameTileEquivalence` proves it an equivalence |
| Tiles.IsSameTileEquivalence | src/logic/tiles.ts:51-53 | tile sameness is reflexive, symmetric and transitive, and it is equality once the honor kind is ignored |
| Tiles.CompareTiles | src/logic/tiles.ts:70-76 | the comparator is zero exactly on the same tile, negative exactly when the first tile sorts before the second (man, pin, sou, honor, then value), positive exactly for the reverse |
| Tiles.CompareTilesOrder | src/logic/tiles.ts:70-76 | swapping the arguments flips the sign, and "not after" is transitive: the comparator is a total preorder fit for sorting |
| Tiles.IsYakuhai | src/logic/tiles.ts:79-88 | a value honor is a dragon (honor 5 and up), the seat wind or the round wind, and never a suited tile |
| Tiles.IsDoubleWind | src/logic/tiles.ts:91-95 | a double wind is a wind (honor at most 4) equal to both the seat wind and the round wind; `YakuhaiFacts` makes every double wind a value honor |
| Tiles.YakuhaiFacts | src/logic/tiles.ts:79-95 | suited tiles are never value honors; dragons always are; a double wind is a value honor; a double wind is a wind equal to both the seat wind and the round wind |
| Tiles.ParseTileNotation | src/logic/tiles.ts:99-123 | the parser's output equals the reference reading `Emitted`: each digit yields one tile of the next suit letter after it, and digits with no suit letter after them yield nothing; at most one tile per character, and none from the empty string |
| Tiles.ParseStep | src/logic/tiles.ts:110-119 | one character moves the parser along: a digit joins the pending values, a suit letter flushes them as tiles of that suit, any other character is skipped |
| Tiles.Flush | src/logic/tiles.ts:113-118 | a suit letter emits one tile per pending value, in order, each built by `CreateTile` with that suit |
| Tiles.NotationRoundTrip | src/logic/tiles.ts:99-123 | writing created tiles with values 1..9 one digit and one suit letter at a time, and parsing that text, gives the tiles back |
| YakuList.Definition | src/logic/yaku-list.ts:4-234 | each yaku's entry carries that yaku's id |
| YakuList.Table | src/logic/yaku-list.ts:4-234 | the master table holds 25 entries, position by position the definition of the yaku at that position |
| YakuList.TableIdsDistinct | src/logic/yaku-list.ts:4-234 | no yaku has two entries in the table, and it has 25 entries |
| YakuList.DefinitionHanFacts | src/logic/yaku-list.ts:4-234 | the concealed-only yaku are exactly those with no open value; no yaku is worth more open than closed; the yaku reduced when open lose exactly one han; every value is at least one han |
| YakuList.TableHanFacts | src/logic/yaku-list.ts:4-234 | the same facts, entry by entry over the table |
| YakuList.FindById | src/logic/yaku-list.ts:237-239 | the lookup finds an entry with the id exactly when the list has one, and it finds the first |
| YakuList.FindByName | src/logic/yaku-list.ts:237-239 | a lookup by identifier string succeeds exactly when some entry's id string matches, and returns such an entry |
| YakuList.GetYakuById | src/logic/yaku-list.ts:237-239 | looking up an identifier string gives a table entry with that string, and gives nothing exactly when no entry has it |
| YakuList.IdNameInjective | src/logic/yaku-list.ts:4-234 | distinct yaku have distinct identifier strings |
| YakuList.GetYakuByIdKnown | src/logic/yaku-list.ts:237-239 | every yaku is found under its own identifier string, and the entry found is that yaku's |
| YakuList.IndexOf | src/logic/yaku-list.ts:4-234 | every yaku has a position in the table, holding its definition |
| YakuList.IndexOfIdAt | src/logic/yaku-list.ts:4-234 | position and yaku determine each other: no two positions hold the same yaku |
| YakuList.FindByIdIsEntry | src/logic/yaku-list.ts:4-234 | looking up the id found at some position returns that position's entry |
| YakuList.GetYakuByHan | src/logic/yaku-list.ts:242-252 | the grouping has a key for exactly the han values the table uses, and each key holds the entries with that han, in table order |
| YakuList.WithHanPartition | src/logic/yaku-list.ts:242-252 | each entry lands in exactly one group, the one keyed by its own han |
| YakuList.WithHanEmpty | src/logic/yaku-list.ts:242-252 | a han that no entry has gets an empty group |
| FuCalculator.CalculateMentsuFu | src/logic/fu-calculator.ts:5-37 | a sequence earns nothing; a triplet earns 2, doubled for a terminal or honor, doubled again when closed, and four times that as a quad |
| FuCalculator.CalculateJantouFu | src/logic/fu-calculator.ts:40-54 | the pair earns 4 exactly for a double wind, 2 exactly for any other value honor, and 0 exactly when it is not a value honor |
| FuCalculator.CalculateWaitFu | src/logic/fu-calculator.ts:57-69 | the closed, edge and single waits earn 2; the two-sided and dual-pon waits earn 0 |
| FuCalculator.MentsuFuList | src/logic/fu-calculator.ts:145-148 | the breakdown has one line per meld, in hand order, each with that meld's fu |
| FuCalculator.RoundUp10 | src/logic/fu-calculator.ts:170 | the result is a multiple of ten within ten above the input |
| FuCalculator.RoundUp10Least | src/logic/fu-calculator.ts:170 | no smaller multiple of ten lies at or above the input |
| FuCalculator.IsPinfu | src/logic/fu-calculator.ts:72-88 | the pinfu shape is a closed hand of sequences only, whose pair is not a value honor, won on a two-sided wait |
| FuCalculator.PinfuLinesZero | src/logic/fu-calculator.ts:72-88 | on a pinfu hand every meld line, the pair line and the wait line are zero |
| FuCalculator.AllShuntsuSumZero | src/logic/fu-calculator.ts:5-37 | melds that are all sequences sum to zero fu |
| FuCalculator.CalculateFu | src/logic/fu-calculator.ts:96-173 | the base is 20; seven pairs is a bare 25; otherwise the meld, pair and wait lines follow their rules; pinfu is 20 on tsumo and 30 on ron with no menzen or tsumo bonus; any other hand earns 10 for a closed ron and 2 for tsumo, then rounds the sum up to a multiple of ten, with an open 20 raised to 30 |
| FuCalculator.PinfuRawIsBase | src/logic/fu-calculator.ts:113-132 | under pinfu the itemised lines add up to the bare 20, so the fixed totals equal the rounded sum plus the usual ron bonus |
| FuCalculator.FuTotalShape | src/logic/fu-calculator.ts:96-173 | every total is 25 for seven pairs, otherwise a multiple of ten of at least 20 |
| FuCalculator.OpenHandFuAtLeast30 | src/logic/fu-calculator.ts:157-170 | an open standard hand's total is at least 30 fu |
| ScoreCalculator.LimitTableShape | src/logic/score-calculator.ts:5-11 | each limit row splits the self-draw so that it adds up to the ron payment; the dealer is paid one and a half times a non-dealer; every column grows with the tier |
| ScoreCalculator.LimitScoresOf | src/logic/score-calculator.ts:5-11 | the five limit rows (non-dealer ron, dealer ron, self-draw from a non-dealer, self-draw from the dealer, dealer self-draw), as the table gives them; `LimitTableShape` states their shape |
| ScoreCalculator.RoundUp100 | src/logic/score-calculator.ts:14-16 | the result is a multiple of 100 within 100 above the input |
| ScoreCalculator.RoundUp100Least | src/logic/score-calculator.ts:14-16 | no smaller multiple of 100 lies at or above the input |
| ScoreCalculator.RoundUp100Monotone | src/logic/score-calculator.ts:14-16 | rounding keeps order |
| ScoreCalculator.CheckLimit | src/logic/score-calculator.ts:19-54 | yakuman exactly from 13 han, sanbaiman at 11-12, baiman at 8-10, haneman at 6-7, mangan at 5 or at 4 han with 40 fu or 3 han with 70 fu, and no limit exactly otherwise |
| ScoreCalculator.CheckLimitMonotone | src/logic/score-calculator.ts:19-54 | adding han to a limit hand keeps it a limit hand of the same or a higher tier |
| ScoreCalculator.Pow2Monotone | src/logic/score-calculator.ts:57-59 | the power of two in the base points grows with its exponent |
| ScoreCalculator.BasePoints | src/logic/score-calculator.ts:57-59 | the base points are fu times two to the power of han plus two; `BasePointsMonotone` shows they grow with han |
| ScoreCalculator.BasePointsMonotone | src/logic/score-calculator.ts:57-59 | at fixed fu the base points grow with han |
| ScoreCalculator.ScoreFromFu | src/logic/score-calculator.ts:62-124 | a ron has a ron payment and no self-draw payments; a self-draw has the non-dealer payment, and the dealer's share exactly when the winner is not the dealer; a limit hand pays its row of the table; any other hand pays the base points times 4, 6, 1 and 2, each rounded up to 100 |
| ScoreCalculator.CalculateScore | src/logic/score-calculator.ts:62-124 | the score carries the fu calculator's total and the problem's han; the ron payment is present exactly on a ron; the dealer's self-draw share is present exactly on a non-dealer self-draw; the tier is the one the limit check gives |
| ScoreCalculator.GetTsumoTotal | src/logic/score-calculator.ts:140-148 | a dealer collects three equal payments; a non-dealer collects two non-dealer payments and the dealer's; a missing payment counts as zero |
| ScoreCalculator.TsumoTotalMatchesRon | src/logic/score-calculator.ts:62-148 | a limit hand's self-draw total equals its ron payment; any other hand's self-draw total is within 300 points of its ron payment |
| ScoreCalculator.BelowLimitBase | src/logic/score-calculator.ts:19-59 | a hand below the limit with at most 120 fu of a shape the fu calculator produces has under 2000 base points, so its ron pays less than mangan |
| ScoreCalculator.RonMonotoneInHan | src/logic/score-calculator.ts:19-124 | for fu up to 120 of that shape, more han never lowers the ron payment |
| ScoreCalculator.UncappedAboveMangan | src/logic/score-calculator.ts:57-59 | past 120 fu the uncapped formula pays more at 2 han (8400) than the mangan at 3 han (8000) |
| ScoreCalculator.WorkedExamples | src/logic/score-calculator.test.ts:78-86 | the worked cases: 3900 for a 30 fu 3 han non-dealer ron, 400/700 for a 20 fu 2 han non-dealer self-draw, 8000 for 4 han 40 fu, 48000 for a 13 han dealer ron |
| YakuCalculator.AppliedHanIsFoundHan | src/logic/yaku-calculator.ts:138-146 | the han a yaku is added at equals the first table entry's closed or open value |
| YakuCalculator.AppliedHanFacts | src/logic/yaku-calculator.ts:138-146 | every yaku has a closed value of at least one; exactly the concealed-only yaku are refused on an open hand; an open value never exceeds the closed one |
| YakuCalculator.ClosedHanOfSevenPairsYaku | src/logic/yaku-calculator.ts:17-24 | seven pairs adds chiitoitsu at 2, riichi at 1 and menzen tsumo at 1 |
| YakuCalculator.AddYaku | src/logic/yaku-calculator.ts:138-146 | adding keeps every entry priced at the table's value for the hand, and adds at most one entry |
| YakuCalculator.AddYakuKeepsPrefix | src/logic/yaku-calculator.ts:138-146 | adding only appends: earlier entries keep their places |
| YakuCalculator.AddYakuHas | src/logic/yaku-calculator.ts:138-146 | after adding, the list holds a yaku exactly when it held it before, or it is the yaku added and the table gives it a value for the hand |
| YakuCalculator.AddIfHas | src/logic/yaku-calculator.ts:35-125 | the same, for a step that adds only when its check holds |
| YakuCalculator.SumHanAtLeastLength | src/logic/yaku-calculator.ts:29 | a priced list is worth at least one han per entry |
| YakuCalculator.MeldTiles | src/logic/yaku-calculator.ts:149-153 | the collected tiles are exactly the tiles of the melds |
| YakuCalculator.GetAllTiles | src/logic/yaku-calculator.ts:149-156 | all the hand's tiles are the melds' tiles followed by the two tiles of the pair, and nothing else |
| YakuCalculator.CheckTanyao | src/logic/yaku-calculator.ts:159-162 | all simples: every tile of the hand, pair included, is a simple |
| YakuCalculator.CheckToitoi | src/logic/yaku-calculator.ts:165-167 | all triplets: every meld is a triplet or a quad |
| YakuCalculator.IsAnkou | src/logic/yaku-calculator.ts:172-181 | a concealed triplet is a closed triplet or quad, except that on a ron with a dual-pon wait the one holding the winning tile does not count |
| YakuCalculator.CheckSanankou | src/logic/yaku-calculator.ts:170-185 | three concealed triplets: at least three melds count as concealed triplets |
| YakuCalculator.AnkouCountBounds | src/logic/yaku-calculator.ts:170-185 | concealed triplets are among the closed triplets and quads, and only a ron on a dual-pon wait can open one of them |
| YakuCalculator.GivesYakuhai | src/logic/yaku-calculator.ts:188-211 | an honor triplet or quad earns hatsu for value 5, haku for 6, chun for 7, the round-wind yaku for the round wind and the seat-wind yaku for the seat wind |
| YakuCalculator.DragonStepsHas | src/logic/yaku-calculator.ts:196-199 | a dragon triplet adds exactly the value-honor yaku of its dragon |
| YakuCalculator.WindStepsHas | src/logic/yaku-calculator.ts:200-210 | a wind triplet adds the round-wind yaku exactly when it is the round wind and the seat-wind yaku exactly when it is the seat wind |
| YakuCalculator.WindStepsCount | src/logic/yaku-calculator.ts:200-211 | the wind steps add the seat-wind entry once, on whichever of the two exclusive branches applies, and the round-wind entry once |
| YakuCalculator.YakuhaiOfMeldHas | src/logic/yaku-calculator.ts:188-213 | one meld adds exactly the value-honor yaku it earns |
| YakuCalculator.CheckYakuhaiHas | src/logic/yaku-calculator.ts:188-213 | all the melds together add exactly the value-honor yaku that one of them earns |
| YakuCalculator.CheckYakuhaiCount | src/logic/yaku-calculator.ts:188-213 | all the melds together add, for each value-honor yaku the table prices, one entry per meld that earns it |
| YakuCalculator.CheckYakuhaiOrder | src/logic/yaku-calculator.ts:188-213 | the value-honor entries all share one place in the check order, so adding them keeps the list in that order |
| YakuCalculator.CheckHonitsu | src/logic/yaku-calculator.ts:216-233 | half flush: the hand has suited tiles of exactly one suit and at least one honor |
| YakuCalculator.CheckChinitsu | src/logic/yaku-calculator.ts:236-246 | full flush: no tile is an honor and the suited tiles are of exactly one suit |
| YakuCalculator.HonitsuMeaning | src/logic/yaku-calculator.ts:216-233 | half flush holds exactly when the hand has an honor and suited tiles of one suit only |
| YakuCalculator.ChinitsuMeaning | src/logic/yaku-calculator.ts:236-246 | full flush holds exactly when every tile is of one suit and none is an honor |
| YakuCalculator.CheckIipeikou | src/logic/yaku-calculator.ts:249-266 | one identical pair of sequences: a closed hand with two sequences starting on the same tile |
| YakuCalculator.CheckRyanpeikou | src/logic/yaku-calculator.ts:509-531 | two identical pairs: a closed hand with at least four sequences, among which two different starting tiles each start at least two sequences |
| YakuCalculator.RyanpeikouShapeHasIipeikouShape | src/logic/yaku-calculator.ts:249-266 | every hand with the two-identical-pairs shape also has the one-identical-pair shape |
| YakuCalculator.CheckHonroutou | src/logic/yaku-calculator.ts:269-272 | all terminals and honors: every tile is a terminal or an honor |
| YakuCalculator.CheckSanshokuDoujun | src/logic/yaku-calculator.ts:275-300 | three colour sequences: at least three sequences, with a man, a pin and a sou sequence starting on the same value |
| YakuCalculator.CheckIttsu | src/logic/yaku-calculator.ts:303-325 | straight: at least three sequences, with sequences of one suit starting on 1, 4 and 7 |
| YakuCalculator.CheckChanta | src/logic/yaku-calculator.ts:328-363 | mixed outside hand: the pair holds a terminal or honor, every sequence starts on 1 or 7, every triplet or quad is of a terminal or honor, and the pair or some triplet or quad is of honors |
| YakuCalculator.CheckJunchan | src/logic/yaku-calculator.ts:366-391 | pure outside hand: the pair is a suited 1 or 9, every sequence starts on 1 or 7, and every triplet or quad is of a suited 1 or 9 |
| YakuCalculator.CheckSanshokuDoukou | src/logic/yaku-calculator.ts:444-474 | three colour triplets: at least three triplets or quads, with a man, a pin and a sou one of the same value |
| YakuCalculator.CheckSankantsu | src/logic/yaku-calculator.ts:477-480 | three quads: at least three melds are quads |
| YakuCalculator.CheckShousangen | src/logic/yaku-calculator.ts:483-506 | little three dragons: exactly two dragon triplets or quads and a dragon pair |
| YakuCalculator.CheckYakuhai | src/logic/yaku-calculator.ts:188-213 | the value-honor step goes through the melds in hand order and runs each honor triplet or quad through the dragon and wind steps; `CheckYakuhaiHas` and `CheckYakuhaiCount` state what it adds |
| YakuCalculator.Awarded | src/logic/yaku-calculator.ts:34-125 | the condition the standard branch checks for each yaku: riichi on every closed hand, menzen tsumo on a closed self-draw, the check functions for the rest, iipeikou only without ryanpeikou, and never seven pairs or double riichi |
| YakuCalculator.RunStepsHas | src/logic/yaku-calculator.ts:35-125 | a run of checks adds exactly the yaku among its own whose check holds and which the table prices for the hand |
| YakuCalculator.StandardYakuList | src/logic/yaku-calculator.ts:34-125 | every entry of the standard list is priced at the table's value for the hand |
| YakuCalculator.EarlyYakuListHas | src/logic/yaku-calculator.ts:34-65 | the list after the value honors holds exactly the awarded yaku from riichi to sanankou and the earned value honors |
| YakuCalculator.StandardYakuMembership | src/logic/yaku-calculator.ts:34-125 | the standard list holds a yaku exactly when its condition holds and the table gives it a value for the hand |
| YakuCalculator.AwardedBySource | src/logic/yaku-calculator.ts:34-125 | every awarded yaku comes from a check before the value honors, from the value honors, or from a check after them |
| YakuCalculator.CountHas | src/logic/yaku-calculator.ts:138-146 | a yaku is in the list exactly when it has at least one entry |
| YakuCalculator.RunsOnly | src/logic/yaku-calculator.ts:165-213 | a hand of sequences only has no all-triplets, three concealed triplets, three colour triplets, three quads or little three dragons, and no meld earns a value-honor yaku |
| YakuCalculator.RunStepsCount | src/logic/yaku-calculator.ts:35-125 | a run of checks adds one entry for each of its yaku whose check holds and which the table prices, and none for any other yaku |
| YakuCalculator.RunStepsOrder | src/logic/yaku-calculator.ts:35-125 | a run of checks appends its entries in check order after entries that come no later in that order |
| YakuCalculator.StandardYakuCount | src/logic/yaku-calculator.ts:34-125 | the standard list has, for each yaku the table prices on this hand, one entry per earning meld for a value honor and one entry when the condition holds for any other yaku; it has no entry for an unpriced yaku |
| YakuCalculator.StandardYakuOrder | src/logic/yaku-calculator.ts:34-125 | the standard list is in the source's check order: riichi through sanankou, then the value honors, then honitsu through ryanpeikou |
| YakuCalculator.StandardTotalHan | src/logic/yaku-calculator.ts:29-135 | a standard hand's total is, over the table, each yaku's han times its number of entries, plus dora |
| YakuCalculator.TotalFromAwards | src/logic/yaku-calculator.ts:29-135 | so the total is fixed once it is known how often each yaku is awarded |
| YakuCalculator.GetDoraFromIndicator | src/logic/yaku-calculator.ts:426-441 | the dora keeps the indicator's suit; on valid tiles it is a valid tile other than the indicator, and it stays a wind for a wind and a dragon for a dragon |
| YakuCalculator.DoraIndicatorUnique | src/logic/yaku-calculator.ts:426-441 | on valid tiles the indicator-to-dora map is a bijection: each dora has exactly one indicator |
| YakuCalculator.DoraStep | src/logic/yaku-calculator.ts:426-441 | one step keeps the tile in its cycle and advances its value by one, wrapping 9 to 1, north to east and chun to hatsu |
| YakuCalculator.DoraAfterClosedForm | src/logic/yaku-calculator.ts:426-441 | repeated succession advances the value around its cycle: nine for each suit, four for the winds, three for the dragons |
| YakuCalculator.DoraCycle | src/logic/yaku-calculator.ts:426-441 | going once around the cycle returns to the starting tile |
| YakuCalculator.CountSame | src/logic/yaku-calculator.ts:394-404 | the count is at most the number of tiles, and is zero exactly when no tile is the same as the target |
| YakuCalculator.CountDoraAdditive | src/logic/yaku-calculator.ts:394-423 | dora counts add up over the indicators and over the tiles |
| YakuCalculator.CountDoraBound | src/logic/yaku-calculator.ts:394-404 | no hand has more dora than tiles times indicators |
| YakuCalculator.CountDora | src/logic/yaku-calculator.ts:394-404 | a standard hand's dora are, summed over the indicators, the tiles of the whole hand that are the same as the indicator's dora; `CountDoraAdditive` and `CountDoraBound` state its sums and bound |
| YakuCalculator.CountDoraForChiitoitsu | src/logic/yaku-calculator.ts:407-423 | seven pairs counts dora the same way over the listed pairs only, and has none when no pair list is present |
| YakuCalculator.SevenPairsYakuList | src/logic/yaku-calculator.ts:17-24 | seven pairs scores chiitoitsu at 2 and riichi at 1, plus menzen tsumo at 1 on a self-draw, all at their closed values |
| YakuCalculator.CalculateYaku | src/logic/yaku-calculator.ts:13-135 | seven pairs takes its fixed list and counts dora over the listed pairs; a standard hand's list holds exactly the awarded yaku priced for the hand, each as many times as it is awarded (once per earning meld for a value honor), in the order the checks run; the total is the sum of the entries plus dora, and at least one per entry plus dora |
| YakuCalculator.OpenHandHasNoConcealedOnlyYaku | src/logic/yaku-calculator.ts:138-146 | a concealed-only yaku never appears on an open hand |
| YakuCalculator.IipeikouExcludesRyanpeikou | src/logic/yaku-calculator.ts:77-80 | iipeikou and ryanpeikou never appear together |
| YakuCalculator.HonitsuExcludesChinitsu | src/logic/yaku-calculator.ts:216-246 | half flush and full flush never appear together |
| YakuCalculator.ChantaExcludesJunchan | src/logic/yaku-calculator.ts:328-391 | chanta and junchan never appear together |
| YakuCalculator.HalfFlushNeedsHonor | src/logic/yaku-calculator.ts:216-246 | a half flush holds an honor tile, a full flush holds none, so no hand passes both checks |
| YakuCalculator.ChantaNeedsHonor | src/logic/yaku-calculator.ts:328-391 | a chanta hand holds an honor tile; a junchan hand has a suited pair and no honor triplet or quad; so no hand passes both checks |
| YakuCalculator.DoubleWindTripletScoresBoth | src/logic/yaku-calculator.ts:200-210 | a triplet of a wind that is both seat and round wind scores both wind yaku |
| TileCounter.KeyOfSameTile | src/logic/problem-generator.ts:44-46 | two tiles share a counter key exactly when they are the same tile |
| TileCounter.GetCount | src/logic/problem-generator.ts:48-50 | the count of a tile kind is what was recorded for its key, and 0 when nothing was |
| TileCounter.CanUse | src/logic/problem-generator.ts:52-54 | n more copies fit exactly when the count plus n is at most four |
| TileCounter.Use | src/logic/problem-generator.ts:56-59 | using copies raises that kind's count by their number and leaves every other kind alone |
| TileCounter.EmptyCounter | src/logic/problem-generator.ts:41-54 | a fresh counter counts zero for every kind, admits exactly up to four copies, and is within the limit |
| TileCounter.UseKeepsLimit | src/logic/problem-generator.ts:52-59 | using copies that fit keeps every kind within four, and what still fits afterwards is what fitted before minus what was used |
| TileCounter.OccurrencesOfCopies | src/logic/problem-generator.ts:56-59 | n copies of a tile hold n of its kind and none of any other |
| TileCounter.UseRecordsCopies | src/logic/problem-generator.ts:56-59 | using n at once records n copies of the tile, and nothing else |
| TileCounter.UseEach | src/logic/problem-generator.ts:56-59 | using one copy of each tile in turn records exactly those tiles |
| TileCounter.AddsKeepsLimit | src/logic/problem-generator.ts:52-59 | recording tiles that fit on top of the counts already used keeps every kind within four |
| ProblemGenerator.RandomInt | src/logic/problem-generator.ts:63-66 | a draw of the integer range stays within its bounds |
| ProblemGenerator.RandomIntCovers | src/logic/problem-generator.ts:63-66 | every value of the range is the outcome of some draw |
| ProblemGenerator.NumberSuit | src/logic/problem-generator.ts:86-88 | the drawn suit is never honors |
| ProblemGenerator.NumberSuitCovers | src/logic/problem-generator.ts:86-88 | every number suit can be drawn |
| ProblemGenerator.DrawnTile | src/logic/problem-generator.ts:177-214 | a drawn tile is a valid created tile, an honor exactly when honors were asked for |
| ProblemGenerator.DrawnTileCovers | src/logic/problem-generator.ts:177-214 | every valid tile kind can be drawn |
| ProblemGenerator.RunKeepsLimit | src/logic/problem-generator.ts:151-174 | a sequence has three distinct kinds, so recording it when one more of each fits keeps the counter within four |
| ProblemGenerator.GenerateShuntsu | src/logic/problem-generator.ts:151-174 | a sequence is found exactly when some try's three tiles all fit; it is a proper number sequence with the asked openness, its tiles are recorded, and the counter stays within four; a failure leaves the counter alone |
| ProblemGenerator.GenerateSet | src/logic/problem-generator.ts:177-214 | a triplet or quad is found exactly when some try's tile has three or four copies left; it is copies of a valid tile of the asked kind, honor exactly when asked, recorded in the counter, which stays within four; a failure leaves the counter alone |
| ProblemGenerator.GenerateJantou | src/logic/problem-generator.ts:217-232 | a pair is found exactly when some try's tile has two copies left; it is two copies of a valid tile, honor exactly when asked, recorded in the counter; a failure leaves the counter alone |
| ProblemGenerator.DetermineMentsuType | src/logic/problem-generator.ts:383-396 | a quad exactly when the draw is below the quad rate; an honor meld is never a sequence; a number sequence needs a draw below 0.6 |
| ProblemGenerator.MeldKinds | src/logic/problem-generator.ts:19-38 | a beginner never draws a quad, while the other levels can draw each meld kind |
| ProblemGenerator.GenerateStandardMentsu | src/logic/problem-generator.ts:399-429 | the meld keeps the asked openness, is recorded in the counter, which stays within four; it is a quad only when one was asked for, and an honor meld only when honors were asked for and it is not a sequence; a failure leaves the counter alone |
| ProblemGenerator.BuildMelds | src/logic/problem-generator.ts:569-589 | the meld loop yields at most one meld per slot and never more than two open melds, none when the hand is drawn closed, and keeps the counter within four |
| ProblemGenerator.BuildStandardHand | src/logic/problem-generator.ts:569-601 | a standard hand has at most four melds, at most two of them open, and keeps the counter within four |
| ProblemGenerator.GetWaitTypeFromShuntsuPosition | src/logic/problem-generator.ts:241-262 | the middle tile is a closed wait; the first tile is an edge wait on 789 and two-sided otherwise; the last tile is an edge wait on 123 and two-sided otherwise; `WaitMatchesShape` ties it to the tiles left over |
| ProblemGenerator.WaitMatchesShape | src/logic/problem-generator.ts:241-262 | the position rule agrees with the two tiles left over: a two-sided wait leaves two completing values, an edge or closed wait leaves one |
| ProblemGenerator.IsInOpenKoutsuOrKantsu | src/logic/problem-generator.ts:265-274 | true exactly when an open triplet or quad claims the tile |
| ProblemGenerator.IsInOpenShuntsu | src/logic/problem-generator.ts:277-288 | true exactly when an open sequence contains the tile |
| ProblemGenerator.IsValidRonTile | src/logic/problem-generator.ts:291-301 | a ron tile is valid exactly when no open meld claims it |
| ProblemGenerator.SequenceCandidatesMembers | src/logic/problem-generator.ts:318-328 | a sequence candidate is exactly a tile of a closed sequence, with the wait its position gives |
| ProblemGenerator.SetCandidatesMembers | src/logic/problem-generator.ts:330-334 | a triplet candidate is exactly a tile of a closed triplet or quad, as a dual-pon wait |
| ProblemGenerator.CandidatesFromHand | src/logic/problem-generator.ts:318-337 | the candidates come exactly from the closed melds and from the pair as a single wait |
| ProblemGenerator.Shuffle | src/logic/problem-generator.ts:78-83 | the shuffle is a permutation of its input |
| ProblemGenerator.ShuffledPick | src/logic/problem-generator.ts:340-349 | the main stage picks a candidate that is still usable, and finds none exactly when no candidate is usable |
| ProblemGenerator.FallbackPick | src/logic/problem-generator.ts:353-379 | the fallback stage takes the first usable tile of the closed melds, in hand order, with its wait, and records it once; failing that the pair tile as a single wait if it is usable, recorded once; failing that the 1m single wait with the counter untouched |
| ProblemGenerator.DetermineWinningTileAndWaitType | src/logic/problem-generator.ts:304-380 | the winning tile is usable and recorded once, or it is the 1m single wait with the counter untouched; while some candidate is usable, the winning tile is a usable candidate; when no closed-meld tile and not the pair tile is usable, the result is exactly the 1m single wait with the counter untouched |
| ProblemGenerator.MeldCandidateInClosed | src/logic/problem-generator.ts:317-356 | every tile a closed meld offers as a candidate is among the tiles the fallback stage scans |
| ProblemGenerator.UsableCandidateInFallback | src/logic/problem-generator.ts:317-379 | a usable candidate means the fallback stage would also find a usable closed-meld tile or a usable pair tile |
| ProblemGenerator.DoraTileOf | src/logic/problem-generator.ts:95-99 | every drawn indicator is a valid tile |
| ProblemGenerator.NumberTiles | src/logic/problem-generator.ts:108-116 | the fallback scan runs over the 27 number tiles, man 1 to 9, then pin, then sou, and covers every suited kind |
| ProblemGenerator.ScanTiles | src/logic/problem-generator.ts:107-119 | the scan records and returns the first tile of its list with a copy left; when none has, it returns 1m and leaves the counter alone; the counter stays within four |
| ProblemGenerator.SingleDoraIndicator | src/logic/problem-generator.ts:91-120 | the indicator is the first try that fits; when no try fits it is the first number tile in scan order that fits; it is recorded once; only when no number tile fits is it 1m with the counter untouched; the counter stays within four |
| ProblemGenerator.DetermineDoraCount | src/logic/problem-generator.ts:123-136 | a hand with a quad shows two or three indicators, any other hand one to three |
| ProblemGenerator.DoraCountCovers | src/logic/problem-generator.ts:123-136 | each count in the range is the outcome of some draw |
| ProblemGenerator.Indicators | src/logic/problem-generator.ts:143-145 | one valid indicator per try list, and the counter stays within four |
| ProblemGenerator.GenerateDoraIndicators | src/logic/problem-generator.ts:139-148 | one to three valid indicators, at least two with a quad, and the counter stays within four |
| ProblemGenerator.HandProblem | src/logic/problem-generator.ts:432-466 | the problem keeps the hand and starts at 0 han; it is closed exactly when no meld is open; its winds and indicator count are in range; a quad gives at least two indicators; the winning tile and wait are the ones chosen for the hand |
| ProblemGenerator.Judge | src/logic/problem-generator.ts:469-488 | a hand is rejected exactly when it has no yaku or reaches 13 han; an accepted one carries its judged total as han, at most 12, and for a well-formed standard hand it is accepted with at least one han |
| ProblemGenerator.CreateProblemFromHand | src/logic/problem-generator.ts:432-489 | the hand is rejected exactly when its yaku list is empty or its total reaches 13; an accepted problem keeps the hand, has 1 to 12 han equal to its judged total, is closed exactly when no meld is open, and is not seven pairs |
| ProblemGenerator.ClosedHandHasYaku | src/logic/problem-generator.ts:432-489 | a closed hand always carries riichi, so it is rejected only for reaching 13 han |
| ProblemGenerator.GeneratedIsNeverYakuman | src/logic/problem-generator.ts:476-479 | an accepted hand never scores as a yakuman, whatever its fu |
| ProblemGenerator.PairTiles | src/logic/problem-generator.ts:1188-1204 | the pair list has one two-tile entry per pair, in order |
| ProblemGenerator.CreateChiitoitsuProblem | src/logic/problem-generator.ts:1160-1221 | it fails exactly when fewer than seven pairs were drawn; otherwise it is an accepted, closed seven-pairs problem on a single wait, won on a tile of one of the first seven pairs, whose yaku include chiitoitsu |
| ProblemGenerator.FallbackProblem | src/logic/problem-generator.ts:511-533 | the fallback hand: 123m 456m 234p 567s with a 22s pair, closed, won by ron on 3m as a non-dealer, south seat in an east round, declared two-sided at 2 han, with an east indicator |
| ProblemGenerator.FallbackGenerated | src/logic/problem-generator.ts:535-538 | the fallback carries the yaku result judged on the fallback hand itself |
| ProblemGenerator.FallbackShape | src/logic/problem-generator.ts:511-539 | the fallback is a closed hand of four proper sequences in range, and it has the pinfu shape |
| ProblemGenerator.FallbackYaku | src/logic/problem-generator.ts:511-539 | the fallback's yaku include riichi and pinfu |
| ProblemGenerator.PinfuOnlyAwards | src/logic/yaku-calculator.ts:34-125 | a closed ron hand of sequences with the pinfu shape that fails every other check is awarded riichi and pinfu once each and nothing else |
| ProblemGenerator.FallbackAwards | src/logic/problem-generator.ts:511-536 | the fallback is awarded riichi and pinfu once each and nothing else |
| ProblemGenerator.FallbackNoDora | src/logic/problem-generator.ts:519-532 | the east indicator makes south the dora, which the all-suited fallback does not hold |
| ProblemGenerator.FallbackTotal | src/logic/problem-generator.ts:530-536 | the judged total of the fallback is the 2 han it declares |
| ProblemGenerator.FallbackAccepted | src/logic/problem-generator.ts:511-538 | the fallback has yaku, its declared han equals its judged total, and its context is in range: it meets the same guarantee as every generated problem |
| ProblemGenerator.FallbackScore | src/logic/problem-generator.ts:511-539 | at its declared 2 han the fallback has 30 fu and pays 2000 on a non-dealer ron |
| ProblemGenerator.FallbackWaitDisagrees | src/logic/problem-generator.ts:514-529 | the fallback declares a two-sided wait on 3m completing 123m, which the position rule calls an edge wait; only 3m completes 12m |
| ProblemGenerator.FirstRare | src/logic/problem-generator.ts:560-567 | a forced rare yaku is one whose draw fell below its rate, and none is forced exactly when no draw did |
| ProblemGenerator.Accepted | src/logic/problem-generator.ts:469-488 | what every returned problem meets: some yaku, han equal to the judged total, context in range, 1 to 12 han for a standard hand and a closed single wait for seven pairs |
| ProblemGenerator.JudgedOnHand | src/logic/problem-generator.ts:469-488 | the attached yaku result is the calculator's verdict on the problem as it stood before its han was filled in |
| ProblemGenerator.HandAttempt | src/logic/problem-generator.ts:1673-1692 | a try succeeds only with four melds and an accepted problem whose yaku include the target |
| ProblemGenerator.YakuAttempt | src/logic/problem-generator.ts:1562-1697 | a successful try is accepted; for seven pairs it is a seven-pairs problem, otherwise a four-meld problem of 1 to 12 han holding the target |
| ProblemGenerator.YakuSearch | src/logic/problem-generator.ts:1562-1697 | the search finds the result of one of the first hundred tries, or reports that the first hundred tries all failed, or that the draws ended before a hundred tries and all of them failed |
| ProblemGenerator.FoundHoldsTarget | src/logic/problem-generator.ts:1685-1692 | a found problem is accepted, and for a target other than seven pairs it is a four-meld hand of 1 to 12 han holding the target |
| ProblemGenerator.StandardAttempt | src/logic/problem-generator.ts:569-609 | the standard branch gives an accepted problem with at most four melds, at most two open, closed exactly when no meld is open |
| ProblemGenerator.GenerateProblem | src/logic/problem-generator.ts:541-612 | once the retries are used up the result is the fallback with its own judged yaku; every result is accepted, and any result other than the fallback carries the yaku judged on its own hand |
| ProblemGenerator.GenerateProblemWithYaku | src/logic/problem-generator.ts:1562-1697 | every result is accepted and is the fallback or carries the yaku judged on its own hand; when a try succeeds, the result is that try's problem, judged on its hand and holding the target |

## Left out

- `getTileName`, `getFuBreakdownDescription`, `formatScore`,
  `getWaitTypeName` and `getWindName`: display text only.
- The React components and `App.tsx` are not part of this model.
- The dedicated hand builders for the forced yaku (`generateChantaHand`
  through `generateRyanpeikouHand`) and `generateChiitoitsuHand` are left
  out. Their results (the melds, the pair or the pairs, and the counter
  afterwards) are part of the draws (`ShowcaseHand`, `ChiitoitsuDraws`).
- Random numbers are pre-drawn parameters. The distributions of
  `Math.random` are not modelled, only which outcome each draw selects. A
  shuffle step with no draw left uses index 0.
- Three places in the generator hand out 1m without consulting the
  counter: `src/logic/problem-generator.ts:119`, `376-379` and `598-601`.
  They are modelled, with the counter unchanged. The counter's
  within-four guarantee is stated for the counter only, not for those
  tiles.
- `ProblemGenerator.GenerateProblem` and
  `ProblemGenerator.GenerateProblemWithYaku` return `None` when the
  supplied draws end before the generator stops. The source need not stop
  at all: after a hundred failed tries `generateProblemWithYaku` calls
  `generateProblem` with the retry count back at 0
  (`src/logic/problem-generator.ts:1696`), and the hand builders loop until
  their draws succeed (`1062`, `1133`, `1241`, `1358`). The model states what a problem is whenever one is
  returned, not that one always is.
- `maxHan` in the difficulty settings is carried but never read, as in the
  source.
- Standard generation accepts hands with fewer than four melds, as the
  source does. `generateProblemWithYaku` requires four.
- `ScoreCalculator.RonMonotoneInHan`: stated only for fu up to 120.
  Beyond that the uncapped formula can pay more than mangan, as
  `ScoreCalculator.UncappedAboveMangan` shows.
- `ScoreCalculator.ScoreFromFu`: takes `fu` and `han` as natural numbers,
  where the source accepts any JavaScript number; negative or fractional
  han and fu are not modelled.
- `YakuCalculator.CalculateYaku`: the `han` of each entry, like the `han`
  of a problem, is a natural number, where the source's type is `number`; every han the source
  assigns is a non-negative integer. The order it states is the order of
  the check functions; the order among several value-honor entries follows
  the meld order and is not stated.
- `ProblemGenerator.GenerateProblemWithYaku`: takes a yaku identifier from
  a closed set, where the source takes any string; a string outside that
  set, which the source sends down its general branch
  (`src/logic/problem-generator.ts:1645`), cannot be expressed.
- Tile values are unbounded integers. The source's JavaScript numbers are
  never large enough here to lose precision.
