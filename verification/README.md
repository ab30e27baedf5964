# Blackjack simulator core, modelled in Dafny

This project models the core of a Go Blackjack simulator and proves
properties of the model. The simulator enumerates the decision tree of a
hand, recording one observation per explored action. It folds those
observations into a four-level statistics table of running means. The
modelled parts are:

- **Cards and deck** (`cards.dfy`, module `Cards`).
  - A 52-slot array built in suit/rank order, reordered by an index permutation, and dealt through a cursor.
  - The short text form of cards. The parsers `ParseCard` and `ParseCards` have no counterpart in the source: they are inverses written only so that the round-trip lemmas can state that the text loses nothing.
- **Hand state** (`game.dfy`, module `Game`).
  - Hard scoring and the score display.
  - The legal-move bitmask.
  - The player-side `GameState` object with its in-place operations: `calcPlayMoves`, `ActionCalc`, `UpdatePlayerState`, `dealInitialCards` and `StartGame`.
- **Statistics table** (`data.dfy`, module `SimData`).
  - The nested map from dealer up-card, player score, hand category and action to (expected value, trials).
  - Its fixed initial layout, built by `CreateSimDataStructure`.
  - Its running-mean update, `AddData`.
- **Tree explorer** (`sim.dfy`, module `Sim`).
  - `getHandCategory` and the `PlayerActions` table.
  - `node_explore`, run over a finite decision tree. A `Node` is either `Terminal`, holding the per-hand values, or a `Decision`. A decision holds the dealer up-card, dealer score, acting score, acting hand, move mask and one successor per action.
  - The explorer is a recursive method that appends to a shared record list. It is proved equal to the ghost function `Explore`, and the properties are proved about `Explore`.
- **Decimal rendering** (`strconv.dfy`, module `Strconv`): `strconv.Itoa` as the card and score texts use it. The parser `Atoi` has no counterpart in the core, which never calls `strconv.Atoi`: it is an inverse written only for the round-trip lemma.

Source loops are methods with loop invariants, proved against a function that states the result:

| method | specified by |
|---|---|
| `calculateScore` | `HardScore` |
| `printScore` | `ScoreText` |
| `PrintCards` | `CardsText` |
| `getHandCategory` | `CategoryOf` |
| `node_explore` | `Explore` |

Objects that the source updates in place are classes: `Deck`, `GameState`, `SimState` (the record list) and `SimDataMap` (the table).

## Model

| member | source | states |
|---|---|---|
| Strconv.Itoa | game/game.go:206-208 | the text is a minus sign exactly for negative values, then decimal digits, with a leading zero only for 0 itself |
| Strconv.NatToString | game/cards.go:119 | the decimal digits of a natural: at least one digit, and no leading zero unless the value is 0 |
| Strconv.ItoaRoundTrip | game/cards.go:119 | reading back the decimal text of any integer gives that integer |
| Strconv.ItoaInjective | game/game.go:206-208 | different integers are rendered as different texts |
| Cards.OrderedCard | game/cards.go:24-28 | construction writes a valid card at each slot i, with i == suit*13 + rank - 1 |
| Cards.OrderedDeckSlot | game/cards.go:24-28 | Card(s, r) sits at slot s*13+r-1 of the unshuffled deck, for every suit 0..3 and rank 1..13 |
| Cards.OrderedDeckComplete | game/cards.go:24-28 | the unshuffled deck holds 52 pairwise distinct valid cards, and every valid card appears in it |
| Cards.Permute | game/cards.go:56-58 | slot i of the reordered sequence holds the old slot p[i] |
| Cards.PermutePreservesMultiset | game/cards.go:49-61 | reordering by a permutation of 0..n-1 keeps every element with its multiplicity |
| Cards.ShufflePermutes | game/cards.go:49-61 | shuffling by a permutation of 0..51 yields a permutation of the deck: same card multiset, and distinct cards stay distinct |
| Cards.Deck.NewDeck | game/cards.go:19-34 | a fresh deck has cursor 0 and holds the suit/rank-ordered deck reordered by the given permutation, so it holds 52 distinct cards |
| Cards.Deck.Draw | game/cards.go:37-47 | returns the card under the cursor and advances the cursor by exactly one; the dealt cards grow by that card; from distinct cards, a drawn card was never dealt before; an exhausted deck is excluded (the source panics) |
| Cards.Deck.Shuffle | game/cards.go:49-61 | the new array's slot i holds the old slot indices[i], trailing slots hold the zero card, and the cursor is untouched |
| Cards.PrintCards | game/cards.go:78-86 | the loop result is the text of each card followed by one space, in input order ("" for no cards) |
| Cards.PrintCardsAppend | game/cards.go:78-86 | printing a concatenation prints the parts one after the other |
| Cards.PrintCardsRoundTrip | game/cards.go:78-86 | the printed text of any list of valid cards parses back to that list |
| Cards.CardString | game/cards.go:90-121 | a valid card is written as 3 or 4 characters, 4 exactly for the ten, with no space |
| Cards.CardStringRoundTrip | game/cards.go:90-121 | the text of a valid card (A/J/Q/K or decimal rank, then the suit symbol) parses back to that card |
| Cards.CardStringInjective | game/cards.go:90-121 | two valid cards with the same text are the same card |
| Game.CalculateScore | game/game.go:175-187 | the loop result is the hard score: each face card counts 10, every other card its rank |
| Game.ScoreAppend | game/game.go:175-187 | the score of a concatenation is the sum of the scores of the parts |
| Game.ScoreOrderIndependent | game/game.go:175-187 | two hands with the same cards in any order have the same score |
| Game.ScoreBounds | game/game.go:175-187 | a hand of n valid cards scores between n and 10n |
| Game.PrintScore | game/game.go:193-211 | the loop result is the score display, built from one pass that tracks the score and an ace flag |
| Game.ScoreScanMeaning | game/game.go:195-205 | the pass of the score display computes exactly the hard score and whether the hand holds an ace |
| Game.PrintScoreMeaning | game/game.go:193-211 | the display is the hard score, followed by "/" and score+10 exactly when the hand has an ace and scores at most 11 |
| Game.PrintScoreLeadingNumber | game/game.go:206-210 | the display starts with the decimal hard score, which reads back to the score |
| Game.LegalMovesBits | game/game.go:83-96 | the move mask is 1, 3, 5 or 7: hit always, double exactly when the score is below 21, split exactly when the first two ranks are equal |
| Game.GameState.CalcPlayMoves | game/game.go:76-97 | only the acting hand's mask changes, and it becomes the legal-move mask of that hand's stored score and cards |
| Game.GameState.ActionCalc | game/game.go:34-74 | accepts only hit, double and split; double advances the hand to play by exactly one, and hit and split keep it; no hand, score or deck changes; the acting mask is recomputed unless every hand has been played |
| Game.GameState.ActionCalcWithStand | game/game.go:37-54 | the corrected step: stand (0) is accepted and passes the turn like double does, with the same mask recomputation |
| Game.GameState.UpdatePlayerState | game/game.go:99-116 | the acting hand's score becomes its hard score, its ace flag is set exactly when it holds an ace, and its mask is recomputed; other entries are unchanged |
| Game.GameState.DealInitialCards | game/game.go:156-173 | exactly four cards are drawn; the first two form one new player hand and the next two are appended to the dealer's hand; one entry is appended to each per-hand slice: the score, false, and hit |
| Game.GameState.StartGame | game/game.go:118-151 | a fresh shuffled deck with four cards dealt; one two-card player hand; hand 0 to act; its score, ace flag and legal moves are set; the four dealt cards are distinct |
| SimData.SimState.constructor | sim/sim.go:83-85 | the record list starts empty |
| SimData.InitialLayout | sim/data.go:35-57 | the initial table has dealer keys 1..10 and score keys 2..20 under each; category 0 always, 1 exactly for scores 3..11, 2 exactly for even scores; actions 0..3 under category 2 and 0..2 otherwise; every entry is (0, 0) |
| SimData.InitialEntryCount | sim/data.go:35-69 | the initial table holds 1240 entries |
| SimData.ScoreCategories | sim/data.go:38-44 | the category list of a score: 0 always, 1 exactly for scores 3..11, 2 exactly for even scores |
| SimData.Put | sim/data.go:60-69 | after creating each missing inner map, the entry at the four keys holds the written value, and the table equals the write of that entry |
| SimData.FillCategory | sim/data.go:47-70 | writing the actions of one category completes that category in the partial layout |
| SimData.FillScore | sim/data.go:38-71 | writing every category of one score completes that score in the partial layout |
| SimData.SimDataMap.CreateSimDataStructure | sim/data.go:32-77 | the constructed table is exactly the initial layout |
| SimData.Observe | sim/data.go:88-90 | one observation adds one trial and adds the value to mean × trials, the mean being updated with the count before the increment |
| SimData.AddOneEffect | sim/data.go:88-106 | one record leaves the dealer, score and category keys unchanged and changes only its own entry; a missing action key reads as (0, 0) and is created; a record whose category path is missing changes nothing |
| SimData.AddAllKeepsLayout | sim/data.go:94-105 | a record list never adds or removes dealer, score or category keys |
| SimData.AddAllEntry | sim/data.go:81-107 | at every key, trials rise by the number of applicable records with that key, and mean × trials rises by their value total; keys with no record are unchanged |
| SimData.MeanFromZero | sim/data.go:89-90 | from (0, 0), an entry holds trials n and the arithmetic mean of the n values fed to it |
| SimData.ThreeObservations | sim/data.go:89-90 | feeding 1, -1 and 0 at one key of the fresh table gives (0, 3) |
| SimData.SimDataMap.AddData | sim/data.go:79-108 | the table becomes the record-by-record fold of the records |
| Sim.CategoryOf | sim/sim.go:218-243 | the category is 0, 1 or 2; it is 2 exactly for two cards of equal rank; category 1 implies an ace |
| Sim.GetHandCategory | sim/sim.go:218-243 | the loop result is the category of the hand |
| Sim.RankSumBounds | sim/sim.go:224-229 | the raw rank sum is at least the hard score, and equal to it without face cards |
| Sim.SoftCategory | sim/sim.go:236-242 | a category-1 hand holds an ace, scores at most 11, and its score display shows the "/soft" part |
| Sim.CategoryWithoutFaces | sim/sim.go:236-242 | without face cards, a non-pair hand is in category 1 exactly when it holds an ace and scores at most 11 |
| Sim.AceKingIsCategoryZero | sim/sim.go:224-242 | ace + king scores a soft 11 but falls in category 0, because the raw rank sum counts the king as 13 |
| Sim.PlayerActions | sim/sim.go:99-107 | four actions numbered by their position: stand with no move bit, then hit, double and split, each with a distinct code that ActionCalc accepts |
| Sim.Explored | sim/sim.go:150 | stand is always tried; hit, double and split are tried exactly when their bit is in the move mask |
| Sim.StandRejected | sim/sim.go:150-155 | stand is tried at every decision and passes mask 0, which ActionCalc does not accept |
| Sim.ExploredMovesHandled | sim/sim.go:147-155 | every tried action is stand or has its bit in the move mask, and its code is one the corrected ActionCalcWithStand accepts |
| Sim.LastExplored | sim/sim.go:147-150 | the highest-numbered action a decision tries, with no tried action above it |
| Sim.SumHandValues | sim/sim.go:125-133 | at a terminal node the value is the sum of the hand values |
| Sim.FindBestAction | sim/sim.go:188-204 | the loop result is the action that the ascending scan of the category map picks, or 0 when a key is missing |
| Sim.ScanFromSpec | sim/sim.go:196-201 | the scan keeps its start when no entry with trials beats it; otherwise it picks a key with trials whose value is maximal among entries with trials |
| Sim.BestActionSpec | sim/sim.go:188-204 | the chosen action is a key with trials whose value exceeds -1000 and is maximal among entries with trials; with a missing key or no such entry it is 0 (stand) |
| Sim.TryAction | sim/sim.go:150-177 | a tried action appends its subtree's records and then its own record (pre-action score, category, action number, subtree value) and yields the subtree value; an untried action appends nothing and yields -100 |
| Sim.ActionValuesKeys | sim/sim.go:146-178 | after the main loop, actions_vals has exactly the keys 0..3, each holding the subtree value or -100 |
| Sim.TryActions | sim/sim.go:146-179 | the main loop tries stand, hit, double and split in that order, and its map and appended records are those of the four actions |
| Sim.EmittedFour | sim/sim.go:147-179 | a decision's own records come in action order, each after its subtree's records |
| Sim.NodeExplore | sim/sim.go:110-215 | the explorer returns Explore's value and appends exactly Explore's records; the table is read and never written |
| Sim.ExploreRecordCount | sim/sim.go:147-179 | a tree yields, at each decision, one record for stand and one per move bit, plus the records of the tried subtrees |
| Sim.RecordsInRange | sim/sim.go:164-172 | every record names an action 0..3 and a category 0..2 |
| Sim.LastRecordIsOwn | sim/sim.go:151-172 | a decision's last record is its own: the last tried action, with the node's pre-action score and that subtree's value |
| Sim.UntriedChildIgnored | sim/sim.go:150-177 | the successor of an untried action has no effect on the value or the records |
| Sim.ColdTableFollowsStand | sim/sim.go:188-207 | with no trials anywhere in the table, every decision returns its stand branch |
| Sim.InitialTableNoTrials | sim/data.go:54-57 | no entry of the initial table has trials |
| Sim.ColdStart | sim/sim.go:188-207 | on the fresh table the explorer values every tree along its stand path |

## Left out

- `main.go`, `config/config.go`, `SimulateBJ` and `single_player_sim` are not part of this model. They are console I/O, flag parsing, timing and progress printing, or a thin wrapper.
- Every debug print branch, `GameState.Print` and `Deck.Print` are left out: they are output only.
- `ToJSON` and `LoadFromJSON` are left out: they are file I/O and JSON encoding.
- `rand.Perm` is not modelled. The shuffle permutation is a parameter of `NewDeck` and `StartGame`, and it is required to be a permutation of 0..51.
- float32 arithmetic is not modelled. Expected values and branch values are reals, so the running mean is exact, and rounding is left out.
- Go's `int` is modelled as an unbounded integer; wrap-around is not modelled. Trial counts are naturals.
- Dealer play, payouts, the `State`/`Value`/`Moves` fields, the dealer's shown score and ace flags, and `Depth` in `SimEvalData` are left out. They are TODOs, unused, or debugging only.
- `GameState.Copy`, `HandValues` and `DealerShownScore` are not modelled. `node_explore` uses them, but the source does not define them.
- The explorer is not composed with `ActionCalc`. As written, that composition reaches the panic at the first decision: stand is tried first with code 0, which `ActionCalc` rejects, as the Findings table below records. With stand accepted, as in `ActionCalcWithStand`, it would recurse forever on hit and split, which leave the state unchanged.
  - Instead, each `Decision` node carries the data the explorer reads from a state, plus one successor per action.
  - The record's dealer fields are the node's own.
- Sim.FindBestAction: Go ranges over a map in random order, so the source leaves ties unspecified. The model scans keys in ascending order, so a tie goes to the lowest key. Sim.BestActionSpec states only what holds for every order: the chosen action is eligible and maximal.
- Sim.NodeExplore: the body of `node_explore` is split into helper methods. `SumHandValues` is the terminal branch, `TryAction`/`TryActions` the main loop, and `FindBestAction` the best-action search.
- SimData.SimDataMap.CreateSimDataStructure: the score body and the category body of the nested loops are the methods `FillScore` and `FillCategory`. The category list they use is built by `ScoreCategories`.
- Cards.Deck.Draw: drawing from an exhausted deck panics in the source. Here that call is excluded by the precondition and is not modelled as a failure value.
- Game.GameState.ActionCalc: codes other than hit, double and split reach a panic in the source. Here they are excluded by the precondition.
- `PlayerScore`, `playerAce` and `PlayerMoves` are sequences that the methods reassign, not slices shared by aliasing.
- `GameState` holds its `Deck` by reference, while Go's `GameState` embeds the `Deck` and its `[52]Card` array by value. No modelled operation copies a state (`Copy` is not modelled), so the difference cannot be observed here.
- Text encoding is not modelled. Go strings are UTF-8 bytes, while the model's strings are sequences of Unicode code points. So "♥️" (U+2665 U+FE0F, bytes E2 99 A5 EF B8 8F in game/cards.go:96) is 2 characters here and 6 bytes in Go, and the "3 or 4 characters" of `Cards.CardString` are 7 or 8 bytes of Go's `len`. No core code measures or indexes these strings.

## Findings

| source | as written | input that shows it | evidently intended | confidence | as-written member | corrected member |
|---|---|---|---|---|---|---|
| game/game.go:37-54 | `ActionCalc` sets the turn as finished for code 0, then falls through the hit/double/split chain into the panic | any decision node: `node_explore` always tries stand and calls `ActionCalc(0)` (sim/sim.go:150-155) | stand is accepted and passes the turn to the next hand, like double | high, not executed | Sim.StandRejected | Game.GameState.ActionCalcWithStand |
