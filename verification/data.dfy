/** The statistics table of sim/data.go: a four-level map from dealer
    up-card, player score, hand category and action to a running mean
    of branch values and its trial count, with its fixed initial layout
    and its incremental update. The record type it consumes is the one
    sim/sim.go emits. */
module SimData {

  /** One table entry. The source stores the mean as float32; it is a real here. */
  datatype SimData = SimData(expectedValue: real, trials: nat)

  /** One record emitted by the tree explorer (sim/sim.go). */
  datatype SimEvalData = SimEvalData(
    dealerStart: int,
    dealerScore: int,
    playerScores: int,
    playerHandCats: int,
    choosenAction: int,
    value: real)

  /** The record list the explorer appends to, shared by every call. */
  class SimState {
    var simEvalData: seq<SimEvalData>

    constructor ()
      ensures simEvalData == []
    {
      simEvalData := [];
    }
  }

  type Table = map<int, map<int, map<int, map<int, SimData>>>>

  const Zero: SimData := SimData(0.0, 0)

  // ---------------------------------------------------------------------
  // Initial layout

  /** The categories kept for a player score, in the order they are added. */
  function CategoryList(score: int): seq<int> {
    [0] + (if score < 12 && score > 2 then [1] else []) + (if score % 2 == 0 then [2] else [])
  }

  /** Split hands (category 2) keep four actions, the others three. */
  function ActionCount(category: int): int {
    if category == 2 then 4 else 3
  }

  // The key ranges of the layout, each named once.

  /** One past the last dealer key (up-cards 1..10). */
  function DealerEnd(): int { 11 }

  /** One past the last player-score key (scores 2..20). */
  function ScoreEnd(): int { 21 }

  /** Actions `0 .. n-1`, each with the zero entry. */
  function ActionsBelow(n: int): map<int, SimData>
    decreases n
  {
    if n <= 0 then map[] else ActionsBelow(n - 1)[n - 1 := Zero]
  }

  /** The categories `ks`, each with its actions. */
  function CategoriesOf(ks: seq<int>): map<int, map<int, SimData>> {
    if ks == [] then map[] else CategoriesOf(ks[..|ks| - 1])[ks[|ks| - 1] := ActionsBelow(ActionCount(ks[|ks| - 1]))]
  }

  /** Player scores `2 .. j-1`, each with its categories. */
  function ScoresBelow(j: int): map<int, map<int, map<int, SimData>>>
    decreases j
  {
    if j <= 2 then map[] else ScoresBelow(j - 1)[j - 1 := CategoriesOf(CategoryList(j - 1))]
  }

  /** Dealer up-cards `1 .. i-1`, each with every player score. */
  function DealersBelow(i: int): Table
    decreases i
  {
    if i <= 1 then map[] else DealersBelow(i - 1)[i - 1 := ScoresBelow(ScoreEnd())]
  }

  /** The table `CreateSimDataStructure` returns. */
  function InitialTable(): Table {
    DealersBelow(DealerEnd())
  }

  lemma {:induction false} ActionsBelowKeys(n: int, a: int)
    ensures a in ActionsBelow(n) <==> 0 <= a < n
    ensures a in ActionsBelow(n) ==> ActionsBelow(n)[a] == Zero
    decreases n
  {
    if n > 0 {
      ActionsBelowKeys(n - 1, a);
    }
  }

  lemma {:induction false} CategoriesOfKeys(ks: seq<int>, c: int)
    ensures c in CategoriesOf(ks) <==> c in ks
    ensures c in CategoriesOf(ks) ==> CategoriesOf(ks)[c] == ActionsBelow(ActionCount(c))
    decreases |ks|
  {
    if ks != [] {
      CategoriesOfKeys(ks[..|ks| - 1], c);
      assert ks == ks[..|ks| - 1] + [ks[|ks| - 1]];
    }
  }

  lemma {:induction false} ScoresBelowKeys(j: int, s: int)
    ensures s in ScoresBelow(j) <==> 2 <= s < j
    ensures s in ScoresBelow(j) ==> ScoresBelow(j)[s] == CategoriesOf(CategoryList(s))
    decreases j
  {
    if j > 2 {
      ScoresBelowKeys(j - 1, s);
    }
  }

  lemma {:induction false} DealersBelowKeys(i: int, d: int)
    ensures d in DealersBelow(i) <==> 1 <= d < i
    ensures d in DealersBelow(i) ==> DealersBelow(i)[d] == ScoresBelow(ScoreEnd())
    decreases i
  {
    if i > 1 {
      DealersBelowKeys(i - 1, d);
      var row := ScoresBelow(ScoreEnd());
      assert DealersBelow(i) == DealersBelow(i - 1)[i - 1 := row];
    }
  }

  /** Dealer keys 1..10; score keys 2..20 under each; category 0 always,
      1 exactly for scores 3..11, 2 exactly for even scores; actions 0..3
      under category 2 and 0..2 otherwise; every entry (0, 0). */
  lemma InitialLayout(d: int, s: int, c: int, a: int)
    ensures var t := InitialTable();
      && (d in t <==> 1 <= d <= 10)
      && (d in t ==> (s in t[d] <==> 2 <= s <= 20))
      && (d in t && s in t[d] ==> (c in t[d][s] <==> c == 0 || (c == 1 && 3 <= s <= 11) || (c == 2 && s % 2 == 0)))
      && (d in t && s in t[d] && c in t[d][s] ==>
            (a in t[d][s][c] <==> 0 <= a < (if c == 2 then 4 else 3)) && (a in t[d][s][c] ==> t[d][s][c][a] == Zero))
  {
    DealersBelowKeys(DealerEnd(), d);
    ScoresBelowKeys(ScoreEnd(), s);
    CategoriesOfKeys(CategoryList(s), c);
    ActionsBelowKeys(ActionCount(c), a);
  }

  // Counting entries. By `InitialLayout` every key of the initial table
  // lies in the ranges counted here: dealer 1..10, score 2..20, category 0..2.

  /** The number of action entries under one category; 0 when it is missing. */
  function CategorySize(t: Table, d: int, s: int, c: int): nat {
    if HasCategory(t, d, s, c) then |t[d][s][c]| else 0
  }

  /** Entries under categories `0 .. n-1` of one score. */
  function CategoriesSize(t: Table, d: int, s: int, n: int): nat
    decreases n
  {
    if n <= 0 then 0 else CategoriesSize(t, d, s, n - 1) + CategorySize(t, d, s, n - 1)
  }

  /** Entries under scores `2 .. j-1` of one dealer card. */
  function ScoresSize(t: Table, d: int, j: int): nat
    decreases j
  {
    if j <= 2 then 0 else ScoresSize(t, d, j - 1) + CategoriesSize(t, d, j - 1, 3)
  }

  /** Entries under dealer cards `1 .. i-1`. */
  function DealersSize(t: Table, i: int): nat
    decreases i
  {
    if i <= 1 then 0 else DealersSize(t, i - 1) + RowSize(t, i - 1)
  }

  /** Entries under one dealer card. */
  function RowSize(t: Table, d: int): nat {
    ScoresSize(t, d, ScoreEnd())
  }

  function EntryCount(t: Table): nat {
    DealersSize(t, DealerEnd())
  }

  /** Entries the layout gives one score: three hard-hand actions, three
      soft-hand actions for scores 3..11, four pair actions for even scores. */
  function LayoutSize(s: int): nat {
    3 + (if 3 <= s <= 11 then 3 else 0) + (if s % 2 == 0 then 4 else 0)
  }

  /** Entries the layout gives scores `2 .. j-1`. */
  function LayoutTotal(j: int): nat
    decreases j
  {
    if j <= 2 then 0 else LayoutTotal(j - 1) + LayoutSize(j - 1)
  }

  lemma {:induction false} ActionsBelowSize(n: nat)
    ensures |ActionsBelow(n)| == n
  {
    if n > 0 {
      ActionsBelowSize(n - 1);
      ActionsBelowKeys(n - 1, n - 1);
    }
  }

  lemma InitialCategorySize(d: int, s: int, c: int)
    requires 1 <= d <= 10 && 2 <= s <= 20
    ensures CategorySize(InitialTable(), d, s, c) == if c in CategoryList(s) then ActionCount(c) else 0
  {
    DealersBelowKeys(DealerEnd(), d);
    ScoresBelowKeys(ScoreEnd(), s);
    CategoriesOfKeys(CategoryList(s), c);
    ActionsBelowSize(ActionCount(c));
  }

  lemma InitialScoreSize(d: int, s: int)
    requires 1 <= d <= 10 && 2 <= s <= 20
    ensures CategoriesSize(InitialTable(), d, s, 3) == LayoutSize(s)
  {
    var t := InitialTable();
    InitialCategorySize(d, s, 0);
    InitialCategorySize(d, s, 1);
    InitialCategorySize(d, s, 2);
    var ks := CategoryList(s);
    assert 0 in ks;
    assert 1 in ks <==> 3 <= s <= 11;
    assert 2 in ks <==> s % 2 == 0;
    assert CategoriesSize(t, d, s, 1) == CategorySize(t, d, s, 0);
    assert CategoriesSize(t, d, s, 2) == CategorySize(t, d, s, 0) + CategorySize(t, d, s, 1);
  }

  lemma {:induction false} InitialScoresSize(d: int, j: int)
    requires 1 <= d <= 10 && 2 <= j <= 21
    ensures ScoresSize(InitialTable(), d, j) == LayoutTotal(j)
    decreases j
  {
    if j > 2 {
      InitialScoresSize(d, j - 1);
      InitialScoreSize(d, j - 1);
    }
  }

  /** A table whose dealer rows each hold 124 entries holds 124 per dealer card. */
  lemma {:induction false} DealersSizeUniform(t: Table, i: int)
    requires 1 <= i <= 11
    requires forall d :: 1 <= d <= 10 ==> RowSize(t, d) == 124
    ensures DealersSize(t, i) == 124 * (i - 1)
    decreases i
  {
    if i > 1 {
      DealersSizeUniform(t, i - 1);
      assert DealersSize(t, i) == DealersSize(t, i - 1) + RowSize(t, i - 1);
      assert RowSize(t, i - 1) == 124;
    }
  }

  /** 19 hard-hand rows of 3, 9 soft-hand rows of 3, 10 pair rows of 4. */
  lemma LayoutTotalValue()
    ensures LayoutTotal(ScoreEnd()) == 124
  {
    assert LayoutTotal(7) == 39;
    assert LayoutTotal(12) == 77;
    assert LayoutTotal(17) == 104;
    assert LayoutTotal(21) == 124;
  }

  /** The initial table holds 1240 entries: 124 for each of the ten dealer cards. */
  lemma InitialEntryCount()
    ensures EntryCount(InitialTable()) == 1240
  {
    var t := InitialTable();
    forall d | 1 <= d <= 10
      ensures RowSize(t, d) == 124
    {
      InitialScoresSize(d, ScoreEnd());
      LayoutTotalValue();
    }
    DealersSizeUniform(t, DealerEnd());
  }

  // The partial table after each write of the construction: dealer rows
  // below `i` complete; under dealer `i`, score rows below `j` complete;
  // under score `j`, the categories `ks[..idx]` complete; under category
  // `ks[idx]`, the actions below `l`.

  function Cats(ks: seq<int>, idx: int, l: nat): map<int, map<int, SimData>>
    requires 0 <= idx <= |ks| && (l > 0 ==> idx < |ks|)
  {
    if l == 0 then CategoriesOf(ks[..idx]) else CategoriesOf(ks[..idx])[ks[idx] := ActionsBelow(l)]
  }

  function Scores(j: int, ks: seq<int>, idx: int, l: nat): map<int, map<int, map<int, SimData>>>
    requires 0 <= idx <= |ks| && (l > 0 ==> idx < |ks|)
  {
    if idx == 0 && l == 0 then ScoresBelow(j) else ScoresBelow(j)[j := Cats(ks, idx, l)]
  }

  function Partial(i: int, j: int, ks: seq<int>, idx: int, l: nat): Table
    requires 0 <= idx <= |ks| && (l > 0 ==> idx < |ks|)
  {
    if j == 2 && idx == 0 && l == 0 then DealersBelow(i) else DealersBelow(i)[i := Scores(j, ks, idx, l)]
  }

  /** `m[k]`, or `dflt` when `k` is missing. */
  function GetOr<K, V>(m: map<K, V>, k: K, dflt: V): V {
    if k in m then m[k] else dflt
  }

  /** One write of the construction: each missing inner map is created
      empty before the entry is written. */
  function Store(t: Table, i: int, j: int, k: int, l: int, v: SimData): Table {
    var row := GetOr(t, i, map[]);
    var cats := GetOr(row, j, map[]);
    var acts := GetOr(cats, k, map[]);
    t[i := row[j := cats[k := acts[l := v]]]]
  }

  // The source's creation of a missing inner map, one level at a time.

  lemma CreateRow(t: Table, i: int)
    ensures (if i !in t then t[i := map[]] else t) == t[i := GetOr(t, i, map[])]
  {
  }

  lemma CreateScore(t: Table, row: map<int, map<int, map<int, SimData>>>, i: int, j: int)
    ensures (if j !in row then t[i := row][i := row[j := map[]]] else t[i := row]) == t[i := row[j := GetOr(row, j, map[])]]
  {
    if j !in row {
      Override(t, i, row, row[j := map[]]);
    } else {
      assert row[j := row[j]] == row;
    }
  }

  lemma CreateCategory(t: Table, row: map<int, map<int, map<int, SimData>>>, cats: map<int, map<int, SimData>>, i: int, j: int, k: int)
    ensures (if k !in cats then t[i := row[j := cats]][i := row[j := cats][j := cats[k := map[]]]] else t[i := row[j := cats]])
         == t[i := row[j := cats[k := GetOr(cats, k, map[])]]]
  {
    if k !in cats {
      Override(row, j, cats, cats[k := map[]]);
      Override(t, i, row[j := cats], row[j := cats[k := map[]]]);
    } else {
      assert cats[k := cats[k]] == cats;
    }
  }

  lemma WriteEntry(t: Table, row: map<int, map<int, map<int, SimData>>>, cats: map<int, map<int, SimData>>,
                   acts: map<int, SimData>, i: int, j: int, k: int, l: int, v: SimData)
    ensures t[i := row[j := cats[k := acts]]][i := row[j := cats[k := acts]][j := cats[k := acts][k := acts[l := v]]]]
         == t[i := row[j := cats[k := acts[l := v]]]]
  {
    Override(cats, k, acts, acts[l := v]);
    Override(row, j, cats[k := acts], cats[k := acts[l := v]]);
    Override(t, i, row[j := cats[k := acts]], row[j := cats[k := acts[l := v]]]);
  }

  lemma Override<K, V>(m: map<K, V>, k: K, x: V, y: V)
    ensures m[k := x][k := y] == m[k := y]
  {
  }

  // What one write does to a partial table, by which of its levels
  // already exist.

  lemma StoreExisting(d: Table, sc: map<int, map<int, map<int, SimData>>>, c: map<int, map<int, SimData>>,
                      a: map<int, SimData>, i: int, j: int, k: int, l: int)
    ensures Store(d[i := sc[j := c[k := a]]], i, j, k, l, Zero) == d[i := sc[j := c[k := a[l := Zero]]]]
  {
    Override(c, k, a, a[l := Zero]);
    Override(sc, j, c[k := a], c[k := a[l := Zero]]);
    Override(d, i, sc[j := c[k := a]], sc[j := c[k := a[l := Zero]]]);
  }

  lemma StoreNewCategory(d: Table, sc: map<int, map<int, map<int, SimData>>>, c: map<int, map<int, SimData>>,
                         i: int, j: int, k: int, l: int)
    requires k !in c
    ensures Store(d[i := sc[j := c]], i, j, k, l, Zero) == d[i := sc[j := c[k := map[l := Zero]]]]
  {
    Override(sc, j, c, c[k := map[l := Zero]]);
    Override(d, i, sc[j := c], sc[j := c[k := map[l := Zero]]]);
  }

  lemma StoreNewScore(d: Table, sc: map<int, map<int, map<int, SimData>>>, i: int, j: int, k: int, l: int)
    requires j !in sc
    ensures Store(d[i := sc], i, j, k, l, Zero) == d[i := sc[j := map[k := map[l := Zero]]]]
  {
    Override(d, i, sc, sc[j := map[k := map[l := Zero]]]);
  }

  lemma StoreNewRow(d: Table, i: int, j: int, k: int, l: int)
    requires i !in d
    ensures Store(d, i, j, k, l, Zero) == d[i := map[j := map[k := map[l := Zero]]]]
  {
  }

  lemma StoreStep(i: int, j: int, ks: seq<int>, idx: int, l: nat)
    requires 2 <= j && ks == CategoryList(j) && 0 <= idx < |ks|
    ensures Store(Partial(i, j, ks, idx, l), i, j, ks[idx], l, Zero) == Partial(i, j, ks, idx, l + 1)
  {
    if l > 0 {
      StepExisting(i, j, ks, idx, l);
    } else if idx > 0 {
      StepNewCategory(i, j, ks, idx);
    } else if j > 2 {
      StepNewScore(i, j, ks);
    } else {
      StepNewRow(i, ks);
    }
  }

  lemma StepExisting(i: int, j: int, ks: seq<int>, idx: int, l: nat)
    requires 0 <= idx < |ks| && l > 0
    ensures Store(Partial(i, j, ks, idx, l), i, j, ks[idx], l, Zero) == Partial(i, j, ks, idx, l + 1)
  {
    StoreExisting(DealersBelow(i), ScoresBelow(j), CategoriesOf(ks[..idx]), ActionsBelow(l), i, j, ks[idx], l);
  }

  lemma StepNewCategory(i: int, j: int, ks: seq<int>, idx: int)
    requires 2 <= j && ks == CategoryList(j) && 0 < idx < |ks|
    ensures Store(Partial(i, j, ks, idx, 0), i, j, ks[idx], 0, Zero) == Partial(i, j, ks, idx, 1)
  {
    var c := CategoriesOf(ks[..idx]);
    CategoryListDistinct(j, idx);
    CategoriesOfKeys(ks[..idx], ks[idx]);
    assert ActionsBelow(1) == map[0 := Zero];
    assert Partial(i, j, ks, idx, 0) == DealersBelow(i)[i := ScoresBelow(j)[j := c]];
    assert Partial(i, j, ks, idx, 1) == DealersBelow(i)[i := ScoresBelow(j)[j := c[ks[idx] := map[0 := Zero]]]];
    StoreNewCategory(DealersBelow(i), ScoresBelow(j), c, i, j, ks[idx], 0);
  }

  /** A score's category list names each category once. */
  lemma CategoryListDistinct(j: int, idx: int)
    requires 0 <= idx < |CategoryList(j)|
    ensures CategoryList(j)[idx] !in CategoryList(j)[..idx]
  {
  }

  lemma StepNewScore(i: int, j: int, ks: seq<int>)
    requires 2 < j && 0 < |ks|
    ensures Store(Partial(i, j, ks, 0, 0), i, j, ks[0], 0, Zero) == Partial(i, j, ks, 0, 1)
  {
    ScoresBelowKeys(j, j);
    StoreNewScore(DealersBelow(i), ScoresBelow(j), i, j, ks[0], 0);
    assert CategoriesOf(ks[..0]) == map[];
  }

  lemma StepNewRow(i: int, ks: seq<int>)
    requires 0 < |ks|
    ensures Store(Partial(i, 2, ks, 0, 0), i, 2, ks[0], 0, Zero) == Partial(i, 2, ks, 0, 1)
  {
    DealersBelowKeys(i, i);
    StoreNewRow(DealersBelow(i), i, 2, ks[0], 0);
    assert CategoriesOf(ks[..0]) == map[];
    assert ScoresBelow(2) == map[];
  }

  lemma CategoryStep(i: int, j: int, ks: seq<int>, idx: int)
    requires 0 <= idx < |ks|
    ensures Partial(i, j, ks, idx, ActionCount(ks[idx])) == Partial(i, j, ks, idx + 1, 0)
  {
    assert ks[..idx + 1][..idx] == ks[..idx];
  }

  lemma ScoreStep(i: int, j: int)
    requires j >= 2
    ensures Partial(i, j, CategoryList(j), |CategoryList(j)|, 0) == Partial(i, j + 1, [], 0, 0)
  {
    var ks := CategoryList(j);
    assert ks[..|ks|] == ks;
  }

  lemma DealerStep(i: int)
    requires i >= 1
    ensures Partial(i, ScoreEnd(), [], 0, 0) == DealersBelow(i + 1)
  {
  }

  // ---------------------------------------------------------------------
  // Reading and updating

  /** Go's chained index `t[d][s][c][a]`: a missing key at any level reads as the zero entry. */
  function Lookup(t: Table, d: int, s: int, c: int, a: int): SimData {
    if d in t && s in t[d] && c in t[d][s] && a in t[d][s][c] then t[d][s][c][a] else Zero
  }

  /** The dealer, score and category levels of the record's key exist. */
  predicate HasCategory(t: Table, d: int, s: int, c: int) {
    d in t && s in t[d] && c in t[d][s]
  }

  /** One observation folded into an entry: the mean is updated with the
      count before it is incremented, so the entry gains one trial and the
      sum its mean stands for (mean times count) gains the observed value. */
  function Observe(e: SimData, v: real): (e': SimData)
    ensures e'.trials == e.trials + 1
    ensures Mass(e') == Mass(e) + v
  {
    var sum := e.expectedValue * e.trials as real + v;
    var count := (e.trials + 1) as real;
    assert sum / count * count == sum;
    SimData(sum / count, e.trials + 1)
  }

  /** The effect of one record on the table. */
  function AddOne(t: Table, r: SimEvalData): Table {
    var d, s, c, a := r.dealerStart, r.playerScores, r.playerHandCats, r.choosenAction;
    if !HasCategory(t, d, s, c) then t
    else t[d := t[d][s := t[d][s][c := t[d][s][c][a := Observe(Lookup(t, d, s, c, a), r.value)]]]]
  }

  /** The effect of a record list, in order. */
  function AddAll(t: Table, rs: seq<SimEvalData>): Table {
    if rs == [] then t else AddOne(AddAll(t, rs[..|rs| - 1]), rs[|rs| - 1])
  }

  /** The record is about entry `(d, s, c, a)`. */
  predicate Matches(r: SimEvalData, d: int, s: int, c: int, a: int) {
    r.dealerStart == d && r.playerScores == s && r.playerHandCats == c && r.choosenAction == a
  }

  /** How many records are about entry `(d, s, c, a)`. */
  function Count(rs: seq<SimEvalData>, d: int, s: int, c: int, a: int): nat {
    if rs == [] then 0
    else Count(rs[..|rs| - 1], d, s, c, a) + (if Matches(rs[|rs| - 1], d, s, c, a) then 1 else 0)
  }

  /** The sum of the values of the records about entry `(d, s, c, a)`. */
  function Total(rs: seq<SimEvalData>, d: int, s: int, c: int, a: int): real {
    if rs == [] then 0.0
    else Total(rs[..|rs| - 1], d, s, c, a) + (if Matches(rs[|rs| - 1], d, s, c, a) then rs[|rs| - 1].value else 0.0)
  }

  /** The entry at `(d, s, c, a)` exists. */
  predicate HasEntry(t: Table, d: int, s: int, c: int, a: int) {
    HasCategory(t, d, s, c) && a in t[d][s][c]
  }

  /** The sum of observations an entry stands for: its mean times its count. */
  function Mass(e: SimData): real {
    e.expectedValue * e.trials as real
  }

  /** One record changes only its own entry, and only when its dealer,
      score and category levels exist; it never adds or removes those levels. */
  lemma AddOneEffect(t: Table, r: SimEvalData, d: int, s: int, c: int, a: int)
    ensures var t' := AddOne(t, r);
      && (d in t' <==> d in t)
      && (d in t ==> (s in t'[d] <==> s in t[d]))
      && (HasCategory(t', d, s, c) <==> HasCategory(t, d, s, c))
      && (HasEntry(t', d, s, c, a) <==> HasEntry(t, d, s, c, a) || (HasCategory(t, d, s, c) && Matches(r, d, s, c, a)))
      && Lookup(t', d, s, c, a) == (if HasCategory(t, d, s, c) && Matches(r, d, s, c, a) then Observe(Lookup(t, d, s, c, a), r.value) else Lookup(t, d, s, c, a))
  {
  }

  /** `AddData` keeps the dealer, score and category keys exactly as they were. */
  lemma {:induction false} AddAllKeepsLayout(t: Table, rs: seq<SimEvalData>, d: int, s: int, c: int)
    ensures var t' := AddAll(t, rs);
      && (d in t' <==> d in t)
      && (d in t ==> (s in t'[d] <==> s in t[d]))
      && (HasCategory(t', d, s, c) <==> HasCategory(t, d, s, c))
    decreases |rs|
  {
    if rs != [] {
      AddAllKeepsLayout(t, rs[..|rs| - 1], d, s, c);
      AddOneEffect(AddAll(t, rs[..|rs| - 1]), rs[|rs| - 1], d, s, c, 0);
    }
  }

  /** Every entry's trial count grows by exactly the number of records
      about it, and the sum its mean stands for grows by exactly their values;
      an entry no record is about keeps its value and its presence. */
  lemma {:induction false} AddAllEntry(t: Table, rs: seq<SimEvalData>, d: int, s: int, c: int, a: int)
    requires HasCategory(t, d, s, c)
    ensures var before, after := Lookup(t, d, s, c, a), Lookup(AddAll(t, rs), d, s, c, a);
      && after.trials == before.trials + Count(rs, d, s, c, a)
      && Mass(after) == Mass(before) + Total(rs, d, s, c, a)
      && (HasEntry(AddAll(t, rs), d, s, c, a) <==> HasEntry(t, d, s, c, a) || Count(rs, d, s, c, a) > 0)
      && (Count(rs, d, s, c, a) == 0 ==> after == before)
    decreases |rs|
  {
    if rs != [] {
      var prefix := rs[..|rs| - 1];
      var r := rs[|rs| - 1];
      AddAllEntry(t, prefix, d, s, c, a);
      AddAllKeepsLayout(t, prefix, d, s, c);
      var mid := AddAll(t, prefix);
      AddOneEffect(mid, r, d, s, c, a);
    }
  }

  /** From an empty entry, the records about it leave their count and
      their arithmetic mean. */
  lemma MeanFromZero(t: Table, rs: seq<SimEvalData>, d: int, s: int, c: int, a: int)
    requires HasCategory(t, d, s, c) && Lookup(t, d, s, c, a) == Zero && Count(rs, d, s, c, a) > 0
    ensures Lookup(AddAll(t, rs), d, s, c, a).trials == Count(rs, d, s, c, a)
    ensures Lookup(AddAll(t, rs), d, s, c, a).expectedValue == Total(rs, d, s, c, a) / Count(rs, d, s, c, a) as real
  {
    AddAllEntry(t, rs, d, s, c, a);
  }

  /** Values 1, -1 and 0 observed for hitting a hard 12 against a dealer
      ace, on the initial table, give the entry (0, 3). */
  lemma ThreeObservations()
    ensures var rs := [SimEvalData(1, 11, 12, 0, 1, 1.0), SimEvalData(1, 11, 12, 0, 1, -1.0), SimEvalData(1, 11, 12, 0, 1, 0.0)];
      Lookup(AddAll(InitialTable(), rs), 1, 12, 0, 1) == SimData(0.0, 3)
  {
    InitialLayout(1, 12, 0, 1);
    ThreeObservationsFrom(InitialTable());
  }

  lemma ThreeObservationsFrom(t: Table)
    requires HasCategory(t, 1, 12, 0) && Lookup(t, 1, 12, 0, 1) == Zero
    ensures var rs := [SimEvalData(1, 11, 12, 0, 1, 1.0), SimEvalData(1, 11, 12, 0, 1, -1.0), SimEvalData(1, 11, 12, 0, 1, 0.0)];
      Lookup(AddAll(t, rs), 1, 12, 0, 1) == SimData(0.0, 3)
  {
    var rs := [SimEvalData(1, 11, 12, 0, 1, 1.0), SimEvalData(1, 11, 12, 0, 1, -1.0), SimEvalData(1, 11, 12, 0, 1, 0.0)];
    assert rs[..1][..0] == [];
    assert Count(rs[..1], 1, 12, 0, 1) == 1 && Total(rs[..1], 1, 12, 0, 1) == 1.0;
    assert rs[..2][..1] == rs[..1];
    assert Count(rs[..2], 1, 12, 0, 1) == 2 && Total(rs[..2], 1, 12, 0, 1) == 0.0;
    assert rs[..2] == rs[..|rs| - 1];
    MeanFromZero(t, rs, 1, 12, 0, 1);
  }

  /** The innermost step of `CreateSimDataStructure`: create each missing
      inner map on the way down, then write the entry. */
  method Put(ds: Table, i: int, j: int, k: int, l: int, simData: SimData) returns (r: Table)
    ensures r == Store(ds, i, j, k, l, simData)
    ensures HasEntry(r, i, j, k, l) && r[i][j][k][l] == simData
  {
    var row := GetOr(ds, i, map[]);
    var cats := GetOr(row, j, map[]);
    var acts := GetOr(cats, k, map[]);
    r := ds;
    CreateRow(ds, i);
    if i !in r {
      r := r[i := map[]];
    }
    CreateScore(ds, row, i, j);
    if j !in r[i] {
      r := r[i := r[i][j := map[]]];
    }
    CreateCategory(ds, row, cats, i, j, k);
    if k !in r[i][j] {
      r := r[i := r[i][j := r[i][j][k := map[]]]];
    }
    WriteEntry(ds, row, cats, acts, i, j, k, l, simData);
    r := r[i := r[i][j := r[i][j][k := r[i][j][k][l := simData]]]];
  }

  /** The innermost loop of `CreateSimDataStructure`: the action entries
      of category `ks[idx]` under dealer card `i` and score `j`. */
  method FillCategory(ds: Table, i: int, j: int, ks: seq<int>, idx: int) returns (r: Table)
    requires 2 <= j && ks == CategoryList(j) && 0 <= idx < |ks|
    requires ds == Partial(i, j, ks, idx, 0)
    ensures r == Partial(i, j, ks, idx + 1, 0)
  {
    var k := ks[idx];
    var playerOptions := 3;
    if k == 2 {
      playerOptions := 4;
    }
    r := ds;
    for l := 0 to playerOptions
      invariant r == Partial(i, j, ks, idx, l)
    {
      var simData := Zero;
      r := Put(r, i, j, k, l, simData);
      StoreStep(i, j, ks, idx, l);
    }
    CategoryStep(i, j, ks, idx);
  }

  /** The category list `CreateSimDataStructure` builds for a score: hard
      hands always, soft hands for scores 3 to 11, pairs for even scores. */
  method ScoreCategories(j: int) returns (loopList: seq<int>)
    ensures loopList == CategoryList(j)
    ensures 0 in loopList && (1 in loopList <==> 2 < j < 12) && (2 in loopList <==> j % 2 == 0)
  {
    loopList := [0];
    if j < 12 && j > 2 {
      loopList := loopList + [1];
    }
    if j % 2 == 0 {
      loopList := loopList + [2];
    }
  }

  /** The body of the score loop of `CreateSimDataStructure`: the
      categories a score admits, each filled in turn. */
  method FillScore(ds: Table, i: int, j: int) returns (r: Table)
    requires 2 <= j
    requires ds == Partial(i, j, [], 0, 0)
    ensures r == Partial(i, j + 1, [], 0, 0)
  {
    var loopList := ScoreCategories(j);
    r := ds;
    for idx := 0 to |loopList|
      invariant r == Partial(i, j, loopList, idx, 0)
    {
      r := FillCategory(r, i, j, loopList, idx);
    }
    ScoreStep(i, j);
  }

  class SimDataMap {
    var data: Table

    /** `CreateSimDataStructure`: build every key of the initial layout,
        creating each inner map when its first entry is written. */
    constructor CreateSimDataStructure()
      ensures data == InitialTable()
    {
      var ds: Table := map[];
      for i := 1 to DealerEnd()
        invariant ds == DealersBelow(i)
      {
        for j := 2 to ScoreEnd()
          invariant ds == Partial(i, j, [], 0, 0)
        {
          ds := FillScore(ds, i, j);
        }
        DealerStep(i);
      }
      data := ds;
    }

    /** `AddData`: fold each record into its entry. A record whose dealer,
        score or category level is missing leaves the table unchanged (the
        source reports it and continues); a missing action key is created. */
    method AddData(state: SimState)
      modifies this
      ensures data == AddAll(old(data), state.simEvalData)
    {
      var records := state.simEvalData;
      for n := 0 to |records|
        invariant data == AddAll(old(data), records[..n])
      {
        var d := records[n];
        var dealerStart := d.dealerStart;
        var playerScore := d.playerScores;
        var playerHandCat := d.playerHandCats;
        var chosenAction := d.choosenAction;

        var simData := Lookup(data, dealerStart, playerScore, playerHandCat, chosenAction);
        simData := simData.(expectedValue := (simData.expectedValue * simData.trials as real + d.value) / (simData.trials + 1) as real);
        simData := simData.(trials := simData.trials + 1);

        assert records[..n + 1][..n] == records[..n];
        assert AddAll(old(data), records[..n + 1]) == AddOne(data, d);
        assert simData == Observe(Lookup(data, dealerStart, playerScore, playerHandCat, chosenAction), d.value);
        if dealerStart !in data {
          continue;
        }
        if playerScore !in data[dealerStart] {
          continue;
        }
        if playerHandCat !in data[dealerStart][playerScore] {
          continue;
        }
        data := data[dealerStart := data[dealerStart][playerScore := data[dealerStart][playerScore][playerHandCat := data[dealerStart][playerScore][playerHandCat][chosenAction := simData]]]];
      }
      assert records[..|records|] == records;
    }
  }
}
