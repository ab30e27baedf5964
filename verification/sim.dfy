/** The depth-first explorer of sim/sim.go. `node_explore` tries every
    legal action of the acting hand on a copy of the game state, recurses,
    appends one record per explored action after the records of its
    subtree, and returns the value of the branch that the statistics table
    currently rates best.

    The game states it walks are given here as a finite decision tree: a
    node is either finished (the values of its hands) or a decision with
    the data the explorer reads and one successor per action. */
module Sim {
  import opened Strconv
  import opened Cards
  import opened Game
  import opened SimData

  // ---------------------------------------------------------------------
  // Hand category

  /** Sum of raw ranks: J, Q, K count 11, 12, 13 and an ace 1. */
  function RankSum(hand: seq<Card>): int {
    if hand == [] then 0 else RankSum(hand[..|hand| - 1]) + hand[|hand| - 1].rank
  }

  /** The category `getHandCategory` assigns: 2 for a pair of equal ranks,
      else 1 for a hand holding an ace whose raw rank sum is at most 11,
      else 0. */
  function CategoryOf(hand: seq<Card>): (cat: int)
    ensures 0 <= cat <= 2
    ensures cat == 2 <==> |hand| == 2 && hand[0].rank == hand[1].rank
    ensures cat == 1 ==> HasAce(hand)
  {
    if |hand| == 2 && hand[0].rank == hand[1].rank then 2
    else if HasAce(hand) && RankSum(hand) <= 11 then 1
    else 0
  }

  /** `getHandCategory`: one pass for the ace flag and the raw rank sum,
      then the pair test. */
  method GetHandCategory(hand: seq<Card>) returns (cat: int)
    ensures cat == CategoryOf(hand)
  {
    var hasAce := false;
    var canSplit := false;
    var rankSum := 0;
    for i := 0 to |hand|
      invariant hasAce == HasAce(hand[..i]) && rankSum == RankSum(hand[..i])
    {
      HasAcePrefix(hand, i);
      assert hand[..i + 1][..i] == hand[..i];
      var card := hand[i];
      if card.rank == 1 {
        hasAce := true;
      }
      rankSum := rankSum + card.rank;
    }
    assert hand[..|hand|] == hand;
    if |hand| == 2 && hand[0].rank == hand[1].rank {
      canSplit := true;
    }
    if canSplit {
      cat := 2;
    } else if hasAce && rankSum <= 11 {
      cat := 1;
    } else {
      cat := 0;
    }
  }

  lemma {:induction false} RankSumBounds(hand: seq<Card>)
    ensures RankSum(hand) >= HardScore(hand)
    ensures (forall i :: 0 <= i < |hand| ==> hand[i].rank <= 10) ==> RankSum(hand) == HardScore(hand)
  {
    if hand != [] {
      RankSumBounds(hand[..|hand| - 1]);
    }
  }

  /** Category 1 is a soft hand: an ace that can count 11 without busting,
      which is when the score display shows its "/" part. */
  lemma SoftCategory(hand: seq<Card>)
    requires CategoryOf(hand) == 1
    ensures HasAce(hand) && HardScore(hand) <= 11
    ensures |ScoreText(hand)| > |Itoa(HardScore(hand))|
  {
    RankSumBounds(hand);
    PrintScoreMeaning(hand);
  }

  /** Without face cards the raw sum is the score, so a hand that is not a
      pair is in category 1 exactly when it is soft. */
  lemma CategoryWithoutFaces(hand: seq<Card>)
    requires forall i :: 0 <= i < |hand| ==> hand[i].rank <= 10
    requires CategoryOf(hand) != 2
    ensures CategoryOf(hand) == 1 <==> HasAce(hand) && HardScore(hand) <= 11
  {
    RankSumBounds(hand);
  }

  /** With a face card the raw sum overshoots the score: ace and king score
      a soft 11 and still fall in category 0. */
  lemma AceKingIsCategoryZero()
    ensures var hand := [Card(0, 1), Card(1, 13)];
      HasAce(hand) && HardScore(hand) == 11 && CategoryOf(hand) == 0
  {
    var hand := [Card(0, 1), Card(1, 13)];
    assert hand[0].rank == 1;
    assert hand[..1][..0] == [];
    assert RankSum(hand[..1]) == 1;
    assert HardScore(hand[..1]) == 1;
  }

  // ---------------------------------------------------------------------
  // Actions

  datatype Action = Action(actionInt: int, actionMask: int)

  /** `PlayerActions`: stand, hit, double, split. Each action's number is
      its position; stand carries no move bit, and the other three carry the
      three distinct codes `ActionCalc` accepts. */
  function PlayerActions(): (acts: seq<Action>)
    ensures |acts| == 4
    ensures forall i :: 0 <= i < |acts| ==> acts[i].actionInt == i
    ensures acts[0].actionMask == 0
    ensures forall i :: 1 <= i < |acts| ==> AcceptedMove(acts[i].actionMask)
    ensures forall i, j :: 0 <= i < j < |acts| ==> acts[i].actionMask != acts[j].actionMask
  {
    [Action(0, 0), Action(1, HitMask), Action(2, DoubleMask), Action(3, SplitMask)]
  }

  /** The number of player actions, the bound of the explorer's main loop. */
  function NumActions(): int { |PlayerActions()| }

  /** Go's `mask & moves != 0` for the action masks, which are 0 or a single bit. */
  predicate MaskHits(mask: int, moves: int) {
    mask > 0 && HasBit(moves, mask)
  }

  /** The explorer tries action `i`: stand always, hit, double and split
      exactly when their bit is in the move mask. */
  function Explored(moves: int, i: int): (tried: bool)
    requires 0 <= i < 4
    ensures i == 0 ==> tried
    ensures i == 1 ==> (tried <==> HasBit(moves, HitMask))
    ensures i == 2 ==> (tried <==> HasBit(moves, DoubleMask))
    ensures i == 3 ==> (tried <==> HasBit(moves, SplitMask))
  {
    MaskHits(PlayerActions()[i].actionMask, moves) || PlayerActions()[i].actionInt == 0
  }

  /** The explorer tries stand at every decision and hands its mask, 0, to
      `ActionCalc`, which accepts only the hit, double and split codes. */
  lemma StandRejected(moves: int)
    ensures Explored(moves, 0) && PlayerActions()[0].actionMask == 0
    ensures !AcceptedMove(PlayerActions()[0].actionMask)
  {
  }

  /** With stand accepted, every action the explorer tries is a code the
      corrected `ActionCalcWithStand` handles. */
  lemma ExploredMovesHandled(moves: int, i: int)
    requires 0 <= i < 4 && Explored(moves, i)
    ensures var m := PlayerActions()[i].actionMask; m == 0 || AcceptedMove(m)
    ensures i > 0 ==> HasBit(moves, PlayerActions()[i].actionMask)
  {
  }

  function BitCount(moves: int, bit: int): nat
    requires bit > 0
  {
    if HasBit(moves, bit) then 1 else 0
  }

  /** Stand plus one action per move bit. */
  function ExploredCount(moves: int): nat {
    1 + BitCount(moves, HitMask) + BitCount(moves, DoubleMask) + BitCount(moves, SplitMask)
  }

  // ---------------------------------------------------------------------
  // The tree and the explorer's specification

  datatype Node =
    | Terminal(handValues: seq<int>)
    | Decision(
        dealerShown: int,
        dealerScore: int,
        score: int,
        hand: seq<Card>,
        moves: int,
        standChild: Node,
        hitChild: Node,
        doubleChild: Node,
        splitChild: Node)

  function Child(t: Node, i: int): Node
    requires t.Decision? && 0 <= i < 4
  {
    if i == 0 then t.standChild else if i == 1 then t.hitChild else if i == 2 then t.doubleChild else t.splitChild
  }

  /** What exploring a subtree gives: its value and the records it appends. */
  datatype Outcome = Outcome(value: real, records: seq<SimEvalData>)

  function SumValues(vs: seq<int>): real {
    if vs == [] then 0.0 else SumValues(vs[..|vs| - 1]) + vs[|vs| - 1] as real
  }

  /** The entry in `actions_vals` for action `i`: the subtree's value, or
      -100 for an action that is not tried. */
  function ActionValue(moves: int, kids: seq<Outcome>, i: int): real
    requires |kids| == 4 && 0 <= i < 4
  {
    if Explored(moves, i) then kids[i].value else -100.0
  }

  /** The records appended while trying actions `0 .. n-1`: for each tried
      action, its subtree's records and then its own record. */
  function Emitted(dealerShown: int, dealerScore: int, score: int, cat: int, moves: int, kids: seq<Outcome>, n: int): seq<SimEvalData>
    requires |kids| == 4 && 0 <= n <= 4
    decreases n
  {
    if n == 0 then []
    else
      Emitted(dealerShown, dealerScore, score, cat, moves, kids, n - 1) +
      if Explored(moves, n - 1) then kids[n - 1].records + [SimEvalData(dealerShown, dealerScore, score, cat, n - 1, kids[n - 1].value)]
      else []
  }

  lemma Pick(s: set<int>) returns (y: int)
    requires s != {}
    ensures y in s
  {
    if forall z :: z !in s {
      assert false;
    }
    y :| y in s;
  }

  lemma {:induction false} MinExists(s: set<int>)
    requires s != {}
    ensures exists m :: m in s && forall x :: x in s ==> m <= x
    decreases |s|
  {
    var y := Pick(s);
    if s == {y} {
      assert forall x :: x in s ==> y <= x;
    } else {
      var rest := s - {y};
      assert |rest| == |s| - 1;
      MinExists(rest);
      var m :| m in rest && forall x :: x in rest ==> m <= x;
      var r := if y < m then y else m;
      forall x | x in s
        ensures r <= x
      {
        if x != y {
          assert x in rest;
        }
      }
      assert r in s;
    }
  }

  ghost function SetMin(s: set<int>): (m: int)
    requires s != {}
    ensures m in s && forall x :: x in s ==> m <= x
  {
    MinExists(s);
    var m :| m in s && forall x :: x in s ==> m <= x;
    m
  }

  /** The scan of a category map over the keys `remaining`, in ascending
      order: an entry with trials that beats the best value so far becomes
      the best action. */
  ghost function ScanFrom(cm: map<int, SimData>, remaining: set<int>, best: int, bestValue: real): int
    requires remaining <= cm.Keys
    decreases |remaining|
  {
    if remaining == {} then best
    else
      var k := SetMin(remaining);
      if cm[k].trials > 0 && cm[k].expectedValue > bestValue then ScanFrom(cm, remaining - {k}, k, cm[k].expectedValue)
      else ScanFrom(cm, remaining - {k}, best, bestValue)
  }

  /** The lowest value an entry must beat to be chosen. */
  const Floor: real := -1000.0

  /** The action the table rates best for a dealer up-card, score and
      category; 0 (stand) when the keys are missing or no entry qualifies. */
  ghost function BestAction(tab: Table, dealer: int, score: int, cat: int): int {
    if HasCategory(tab, dealer, score, cat) then
      ScanFrom(tab[dealer][score][cat], tab[dealer][score][cat].Keys, 0, Floor)
    else 0
  }

  /** `node_explore` as a function of the tree and the (unchanged) table. */
  ghost function Explore(t: Node, tab: Table): Outcome
    decreases t
  {
    match t
    case Terminal(vs) => Outcome(SumValues(vs), [])
    case Decision(dealerShown, dealerScore, score, hand, moves, s0, s1, s2, s3) =>
      var kids := [Explore(s0, tab), Explore(s1, tab), Explore(s2, tab), Explore(s3, tab)];
      var cat := CategoryOf(hand);
      var best := BestAction(tab, dealerShown, score, cat);
      Outcome(
        if 0 <= best < 4 then ActionValue(moves, kids, best) else 0.0,
        Emitted(dealerShown, dealerScore, score, cat, moves, kids, 4))
  }

  ghost function Kids(t: Node, tab: Table): (kids: seq<Outcome>)
    requires t.Decision?
    ensures |kids| == 4
  {
    [Explore(t.standChild, tab), Explore(t.hitChild, tab), Explore(t.doubleChild, tab), Explore(t.splitChild, tab)]
  }

  lemma ExploreDecision(t: Node, tab: Table)
    requires t.Decision?
    ensures var cat := CategoryOf(t.hand);
      var best := BestAction(tab, t.dealerShown, t.score, cat);
      Explore(t, tab) == Outcome(
        if 0 <= best < 4 then ActionValue(t.moves, Kids(t, tab), best) else 0.0,
        Emitted(t.dealerShown, t.dealerScore, t.score, cat, t.moves, Kids(t, tab), 4))
  {
  }

  // ---------------------------------------------------------------------
  // Properties of the best-action search

  /** An entry the search can choose: it has trials and beats the floor. */
  predicate Rated(e: SimData) {
    e.trials > 0 && e.expectedValue > Floor
  }

  lemma {:induction false} ScanFromSpec(cm: map<int, SimData>, remaining: set<int>, best: int, bestValue: real)
    requires remaining <= cm.Keys
    ensures var b := ScanFrom(cm, remaining, best, bestValue);
      || (b == best && forall k :: k in remaining && cm[k].trials > 0 ==> cm[k].expectedValue <= bestValue)
      || (b in remaining && cm[b].trials > 0 && cm[b].expectedValue > bestValue &&
          forall k :: k in remaining && cm[k].trials > 0 ==> cm[k].expectedValue <= cm[b].expectedValue)
    decreases |remaining|
  {
    if remaining != {} {
      var k := SetMin(remaining);
      var rest := remaining - {k};
      if cm[k].trials > 0 && cm[k].expectedValue > bestValue {
        ScanFromSpec(cm, rest, k, cm[k].expectedValue);
      } else {
        ScanFromSpec(cm, rest, best, bestValue);
      }
    }
  }

  /** The chosen action is a key with trials whose expected value beats
      -1000 and is the highest among entries with trials; when the keys are
      missing or no entry qualifies, it is 0 (stand). */
  lemma BestActionSpec(tab: Table, dealer: int, score: int, cat: int)
    ensures var b := BestAction(tab, dealer, score, cat);
      if HasCategory(tab, dealer, score, cat) && exists k :: k in tab[dealer][score][cat] && Rated(tab[dealer][score][cat][k]) then
        var cm := tab[dealer][score][cat];
        b in cm && Rated(cm[b]) && forall k :: k in cm && cm[k].trials > 0 ==> cm[k].expectedValue <= cm[b].expectedValue
      else
        b == 0
  {
    if HasCategory(tab, dealer, score, cat) {
      var cm := tab[dealer][score][cat];
      ScanFromSpec(cm, cm.Keys, 0, Floor);
    }
  }

  // ---------------------------------------------------------------------
  // Properties of the explorer

  /** The value of following stand at every decision. */
  function StandValue(t: Node): real {
    match t
    case Terminal(vs) => SumValues(vs)
    case Decision(_, _, _, _, _, s0, _, _, _) => StandValue(s0)
  }

  /** No entry of the table has trials. */
  ghost predicate NoTrials(tab: Table) {
    forall d, s, c, a :: Lookup(tab, d, s, c, a).trials == 0
  }

  /** With no trials recorded anywhere, every decision returns its stand
      branch, so the whole tree is valued along the stand path. */
  lemma {:induction false} ColdTableFollowsStand(t: Node, tab: Table)
    requires NoTrials(tab)
    ensures Explore(t, tab).value == StandValue(t)
    decreases t
  {
    if t.Decision? {
      var cat := CategoryOf(t.hand);
      BestActionSpec(tab, t.dealerShown, t.score, cat);
      if HasCategory(tab, t.dealerShown, t.score, cat) {
        var cm := tab[t.dealerShown][t.score][cat];
        forall k | k in cm
          ensures !Rated(cm[k])
        {
          assert Lookup(tab, t.dealerShown, t.score, cat, k).trials == 0;
        }
      }
      ColdTableFollowsStand(t.standChild, tab);
      ExploreDecision(t, tab);
    }
  }

  lemma InitialTableNoTrials()
    ensures NoTrials(InitialTable())
  {
    forall d, s, c, a
      ensures Lookup(InitialTable(), d, s, c, a).trials == 0
    {
      InitialLayout(d, s, c, a);
    }
  }

  /** On the freshly created table the explorer values every tree by its stand path. */
  lemma ColdStart(t: Node)
    ensures Explore(t, InitialTable()).value == StandValue(t)
  {
    InitialTableNoTrials();
    ColdTableFollowsStand(t, InitialTable());
  }

  /** How many records a tree yields: at each decision, one per tried
      action (stand plus one per move bit), plus those of the tried subtrees. */
  function RecordCount(t: Node): nat {
    match t
    case Terminal(_) => 0
    case Decision(_, _, _, _, moves, s0, s1, s2, s3) =>
      ExploredCount(moves) + RecordCount(s0)
        + (if HasBit(moves, HitMask) then RecordCount(s1) else 0)
        + (if HasBit(moves, DoubleMask) then RecordCount(s2) else 0)
        + (if HasBit(moves, SplitMask) then RecordCount(s3) else 0)
  }

  lemma EmittedFour(dealerShown: int, dealerScore: int, score: int, cat: int, moves: int, kids: seq<Outcome>)
    requires |kids| == 4
    ensures Emitted(dealerShown, dealerScore, score, cat, moves, kids, 4) ==
      (kids[0].records + [SimEvalData(dealerShown, dealerScore, score, cat, 0, kids[0].value)])
      + (if Explored(moves, 1) then kids[1].records + [SimEvalData(dealerShown, dealerScore, score, cat, 1, kids[1].value)] else [])
      + (if Explored(moves, 2) then kids[2].records + [SimEvalData(dealerShown, dealerScore, score, cat, 2, kids[2].value)] else [])
      + (if Explored(moves, 3) then kids[3].records + [SimEvalData(dealerShown, dealerScore, score, cat, 3, kids[3].value)] else [])
  {
    assert Emitted(dealerShown, dealerScore, score, cat, moves, kids, 0) == [];
  }

  lemma {:induction false} ExploreRecordCount(t: Node, tab: Table)
    ensures |Explore(t, tab).records| == RecordCount(t)
    decreases t
  {
    if t.Decision? {
      var kids := Kids(t, tab);
      ExploreRecordCount(t.standChild, tab);
      ExploreRecordCount(t.hitChild, tab);
      ExploreRecordCount(t.doubleChild, tab);
      ExploreRecordCount(t.splitChild, tab);
      ExploreDecision(t, tab);
      EmittedFour(t.dealerShown, t.dealerScore, t.score, CategoryOf(t.hand), t.moves, kids);
    }
  }

  /** Every record names one of the four actions and one of the three categories. */
  lemma {:induction false} RecordsInRange(t: Node, tab: Table)
    ensures forall r :: r in Explore(t, tab).records ==> 0 <= r.choosenAction < 4 && 0 <= r.playerHandCats <= 2
    decreases t
  {
    if t.Decision? {
      var kids := Kids(t, tab);
      RecordsInRange(t.standChild, tab);
      RecordsInRange(t.hitChild, tab);
      RecordsInRange(t.doubleChild, tab);
      RecordsInRange(t.splitChild, tab);
      ExploreDecision(t, tab);
      EmittedFour(t.dealerShown, t.dealerScore, t.score, CategoryOf(t.hand), t.moves, kids);
    }
  }

  /** The highest-numbered action a decision tries. */
  function LastExplored(moves: int): (i: int)
    ensures 0 <= i < 4 && Explored(moves, i)
    ensures forall j :: i < j < 4 ==> !Explored(moves, j)
  {
    if Explored(moves, 3) then 3 else if Explored(moves, 2) then 2 else if Explored(moves, 1) then 1 else 0
  }

  /** Records come in post-order: a decision's last record is its own, for
      its last tried action, with the acting hand's pre-action score and the
      value of that action's subtree. */
  lemma LastRecordIsOwn(t: Node, tab: Table)
    requires t.Decision?
    ensures var rs := Explore(t, tab).records;
      var i := LastExplored(t.moves);
      rs != [] && rs[|rs| - 1] == SimEvalData(t.dealerShown, t.dealerScore, t.score, CategoryOf(t.hand), i, Explore(Child(t, i), tab).value)
  {
    ExploreDecision(t, tab);
    EmittedFour(t.dealerShown, t.dealerScore, t.score, CategoryOf(t.hand), t.moves, Kids(t, tab));
  }

  /** The explorer never looks at the successor of an action it does not try. */
  lemma UntriedChildIgnored(t: Node, u: Node, tab: Table)
    requires t.Decision? && u.Decision?
    requires t.dealerShown == u.dealerShown && t.dealerScore == u.dealerScore && t.score == u.score
    requires t.hand == u.hand && t.moves == u.moves
    requires forall i :: 0 <= i < 4 && Explored(t.moves, i) ==> Child(t, i) == Child(u, i)
    ensures Explore(t, tab) == Explore(u, tab)
  {
    assert Child(t, 0) == Child(u, 0);
    var cat := CategoryOf(t.hand);
    ExploreDecision(t, tab);
    ExploreDecision(u, tab);
    EmittedFour(t.dealerShown, t.dealerScore, t.score, cat, t.moves, Kids(t, tab));
    EmittedFour(t.dealerShown, t.dealerScore, t.score, cat, t.moves, Kids(u, tab));
    forall i | 0 <= i < 4 && Explored(t.moves, i)
      ensures Kids(t, tab)[i] == Kids(u, tab)[i]
    {
      assert Child(t, i) == Child(u, i);
    }
  }

  // ---------------------------------------------------------------------
  // The explorer

  /** The terminal branch of `node_explore`: the sum of the hand values. */
  method SumHandValues(vs: seq<int>) returns (total: real)
    ensures total == SumValues(vs)
  {
    total := 0.0;
    for ind := 0 to |vs|
      invariant total == SumValues(vs[..ind])
    {
      assert vs[..ind + 1][..ind] == vs[..ind];
      total := total + vs[ind] as real;
    }
    assert vs[..|vs|] == vs;
  }

  /** The best-action search of `node_explore`: look up the category map
      of the node's keys and keep the entry with trials whose expected value
      is highest, scanning keys in ascending order. */
  method FindBestAction(dataset: SimDataMap, dealerShown: int, score: int, handCat: int) returns (bestAction: int)
    ensures bestAction == BestAction(dataset.data, dealerShown, score, handCat)
  {
    bestAction := 0;
    var bestExpectedValue := Floor;
    if dealerShown in dataset.data {
      var dealerMap := dataset.data[dealerShown];
      if score in dealerMap {
        var playerMap := dealerMap[score];
        if handCat in playerMap {
          var categoryMap := playerMap[handCat];
          var remaining := categoryMap.Keys;
          while remaining != {}
            invariant remaining <= categoryMap.Keys
            invariant ScanFrom(categoryMap, remaining, bestAction, bestExpectedValue) == ScanFrom(categoryMap, categoryMap.Keys, 0, Floor)
            decreases |remaining|
          {
            MinExists(remaining);
            var action :| action in remaining && forall x :: x in remaining ==> action <= x;
            assert action == SetMin(remaining);
            var simData := categoryMap[action];
            if simData.trials > 0 && simData.expectedValue > bestExpectedValue {
              bestExpectedValue := simData.expectedValue;
              bestAction := action;
            }
            remaining := remaining - {action};
          }
        }
      }
    }
  }

  /** The records action `i` of a decision node appends: its subtree's
      records, then its own record. */
  function ActionRecords(t: Node, cat: int, kids: seq<Outcome>, i: int): seq<SimEvalData>
    requires t.Decision? && |kids| == 4 && 0 <= i < 4
  {
    if Explored(t.moves, i) then kids[i].records + [SimEvalData(t.dealerShown, t.dealerScore, t.score, cat, i, kids[i].value)]
    else []
  }

  /** Trying action `i` extends the records of actions `0 .. i-1` by that
      action's records. */
  lemma EmittedStep(t: Node, cat: int, kids: seq<Outcome>, i: int)
    requires t.Decision? && |kids| == 4 && 0 <= i < 4
    ensures Emitted(t.dealerShown, t.dealerScore, t.score, cat, t.moves, kids, i + 1)
      == Emitted(t.dealerShown, t.dealerScore, t.score, cat, t.moves, kids, i) + ActionRecords(t, cat, kids, i)
  {
  }

  /** The successor of action `i` is the `i`-th of the outcomes `Kids`. */
  lemma KidsChild(t: Node, tab: Table, i: int)
    requires t.Decision? && 0 <= i < 4
    ensures Kids(t, tab)[i] == Explore(Child(t, i), tab)
  {
  }

  lemma AppendAssoc<T>(a: seq<T>, b: seq<T>, c: seq<T>)
    ensures (a + b) + c == a + (b + c)
  {
  }

  /** One pass of the main loop of `node_explore`: try action `i` when it
      is legal, recursing into its successor and appending its record.
      `kids` stands for the outcomes of the successors; only the `i`-th is
      needed. */
  method TryAction(t: Node, i: int, handCat: int, simState: SimState, dataset: SimDataMap, ghost kids: seq<Outcome>) returns (value: real)
    requires t.Decision? && 0 <= i < 4
    requires |kids| == 4 && kids[i] == Explore(Child(t, i), dataset.data)
    modifies simState
    decreases t, 0
    ensures value == ActionValue(t.moves, kids, i)
    ensures simState.simEvalData == old(simState.simEvalData) + ActionRecords(t, handCat, kids, i)
  {
    var action := PlayerActions()[i];
    if MaskHits(action.actionMask, t.moves) || action.actionInt == 0 {
      var child := if i == 0 then t.standChild else if i == 1 then t.hitChild else if i == 2 then t.doubleChild else t.splitChild;
      value := NodeExplore(child, simState, dataset);
      var simData := SimEvalData(t.dealerShown, t.dealerScore, t.score, handCat, action.actionInt, value);
      simState.simEvalData := simState.simEvalData + [simData];
    } else {
      value := -100.0;
    }
  }

  /** The values of actions `0 .. n-1`, keyed by action number. */
  function ActionValues(moves: int, kids: seq<Outcome>, n: int): (vals: map<int, real>)
    requires |kids| == 4 && 0 <= n <= 4
    decreases n
  {
    if n == 0 then map[] else ActionValues(moves, kids, n - 1)[n - 1 := ActionValue(moves, kids, n - 1)]
  }

  /** After the main loop every action has a value, and only those. */
  lemma {:induction false} ActionValuesKeys(moves: int, kids: seq<Outcome>, n: int)
    requires |kids| == 4 && 0 <= n <= 4
    ensures forall k :: k in ActionValues(moves, kids, n) <==> 0 <= k < n
    ensures forall k :: 0 <= k < n ==> ActionValues(moves, kids, n)[k] == ActionValue(moves, kids, k)
    decreases n
  {
    if n > 0 {
      ActionValuesKeys(moves, kids, n - 1);
    }
  }

  /** The main loop of `node_explore` at a decision node: the actions in
      table order, each value kept in `actions_vals`. */
  method TryActions(t: Node, handCat: int, simState: SimState, dataset: SimDataMap, ghost kids: seq<Outcome>) returns (actionsVals: map<int, real>)
    requires t.Decision? && |kids| == 4
    requires forall k :: 0 <= k < 4 ==> kids[k] == Explore(Child(t, k), dataset.data)
    modifies simState
    decreases t, 1
    ensures actionsVals == ActionValues(t.moves, kids, NumActions())
    ensures simState.simEvalData == old(simState.simEvalData) + Emitted(t.dealerShown, t.dealerScore, t.score, handCat, t.moves, kids, NumActions())
  {
    ghost var start := simState.simEvalData;
    actionsVals := map[];
    for i := 0 to |PlayerActions()|
      invariant actionsVals == ActionValues(t.moves, kids, i)
      invariant simState.simEvalData == start + Emitted(t.dealerShown, t.dealerScore, t.score, handCat, t.moves, kids, i)
    {
      ghost var emitted := Emitted(t.dealerShown, t.dealerScore, t.score, handCat, t.moves, kids, i);
      var value := TryAction(t, i, handCat, simState, dataset, kids);
      EmittedStep(t, handCat, kids, i);
      AppendAssoc(start, emitted, ActionRecords(t, handCat, kids, i));
      actionsVals := actionsVals[i := value];
    }
  }

  /** `node_explore`: appends the records of `t` to `simState` and returns
      the value of `t`. It may change only the record list, so the dataset
      is read and never written. */
  method NodeExplore(t: Node, simState: SimState, dataset: SimDataMap) returns (value: real)
    modifies simState
    decreases t, 2
    ensures value == Explore(t, dataset.data).value
    ensures simState.simEvalData == old(simState.simEvalData) + Explore(t, dataset.data).records
  {
    if t.Terminal? {
      value := SumHandValues(t.handValues);
      return;
    }
    var handCat := GetHandCategory(t.hand);
    ghost var kids := Kids(t, dataset.data);
    forall k | 0 <= k < 4
      ensures kids[k] == Explore(Child(t, k), dataset.data)
    {
      KidsChild(t, dataset.data, k);
    }
    var actionsVals := TryActions(t, handCat, simState, dataset, kids);
    var bestAction := FindBestAction(dataset, t.dealerShown, t.score, handCat);
    value := if bestAction in actionsVals then actionsVals[bestAction] else 0.0;
    ExploreDecision(t, dataset.data);
    ActionValuesKeys(t.moves, Kids(t, dataset.data), 4);
  }
}
