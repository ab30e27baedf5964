/** Cards and the 52-card deck of game/cards.go: construction in suit/rank
    order, reordering by an index permutation, dealing through a cursor,
    and the short text form of cards. */
module Cards {
  import opened Strconv

  const DeckSize: int := 52

  /** Suit 0..3 (hearts, diamonds, clubs, spades); rank 1..13 (ace is 1). */
  datatype Card = Card(suit: int, rank: int)

  predicate ValidCard(c: Card) {
    0 <= c.suit < 4 && 1 <= c.rank <= 13
  }

  predicate Distinct<T(==)>(s: seq<T>) {
    forall i, j :: 0 <= i < j < |s| ==> s[i] != s[j]
  }

  // ---------------------------------------------------------------------
  // Deck order before shuffling

  /** The card that construction writes at slot `i`: slot suit*13+rank-1. */
  function OrderedCard(i: int): (c: Card)
    requires 0 <= i < DeckSize
    ensures ValidCard(c) && i == c.suit * 13 + c.rank - 1
  {
    Card(i / 13, i % 13 + 1)
  }

  function OrderedDeck(): (d: seq<Card>)
    ensures |d| == DeckSize
    ensures forall i :: 0 <= i < DeckSize ==> d[i] == OrderedCard(i)
  {
    seq(DeckSize, i requires 0 <= i < DeckSize => OrderedCard(i))
  }

  /** Card(s, r) sits at slot s*13+r-1 of the unshuffled deck. */
  lemma OrderedDeckSlot(s: int, r: int)
    requires 0 <= s < 4 && 1 <= r <= 13
    ensures OrderedDeck()[s * 13 + r - 1] == Card(s, r)
  {
    var i := s * 13 + r - 1;
    var c := OrderedCard(i);
    assert c.suit * 13 + c.rank - 1 == i;
  }

  /** The unshuffled deck holds 52 distinct valid cards, and every valid card. */
  lemma OrderedDeckComplete()
    ensures Distinct(OrderedDeck())
    ensures forall i :: 0 <= i < DeckSize ==> ValidCard(OrderedDeck()[i])
    ensures forall c :: ValidCard(c) ==> c in OrderedDeck()
  {
    var d := OrderedDeck();
    forall i, j | 0 <= i < j < |d| ensures d[i] != d[j] {
      var ci, cj := OrderedCard(i), OrderedCard(j);
      assert i == ci.suit * 13 + ci.rank - 1;
      assert j == cj.suit * 13 + cj.rank - 1;
    }
    forall c | ValidCard(c) ensures c in d {
      OrderedDeckSlot(c.suit, c.rank);
    }
  }

  // ---------------------------------------------------------------------
  // Permutations

  function Iota(n: nat): (r: seq<int>)
    ensures |r| == n && forall i :: 0 <= i < n ==> r[i] == i
  {
    seq(n, i => i)
  }

  /** What `rand.Perm(n)` returns: the integers 0..n-1, each exactly once. */
  predicate IsPermutation(p: seq<int>, n: nat) {
    multiset(p) == multiset(Iota(n))
  }

  predicate InRange(p: seq<int>, n: int) {
    forall i :: 0 <= i < |p| ==> 0 <= p[i] < n
  }

  lemma PermutationInRange(p: seq<int>, n: nat)
    requires IsPermutation(p, n)
    ensures |p| == n && InRange(p, n)
  {
    assert |multiset(p)| == |multiset(Iota(n))|;
    forall i | 0 <= i < |p| ensures 0 <= p[i] < n {
      assert p[i] in multiset(p);
      assert p[i] in multiset(Iota(n));
    }
  }

  /** The sequence whose i-th element is s[p[i]]. */
  function Permute<T>(s: seq<T>, p: seq<int>): (r: seq<T>)
    requires InRange(p, |s|)
    ensures |r| == |p| && forall i :: 0 <= i < |p| ==> r[i] == s[p[i]]
  {
    seq(|p|, i requires 0 <= i < |p| => s[p[i]])
  }

  /** Removing the largest value n-1 from a permutation of 0..n-1 leaves a
      permutation of 0..n-2. */
  lemma RemoveLargest(p: seq<int>, n: nat, k: int)
    requires n > 0 && IsPermutation(p, n) && 0 <= k < |p| && p[k] == n - 1
    ensures IsPermutation(p[..k] + p[k + 1..], n - 1)
  {
    var p' := p[..k] + p[k + 1..];
    MultisetWithout(p, k);
    assert multiset(p') == multiset(p) - multiset{n - 1};
    assert Iota(n) == Iota(n - 1) + [n - 1];
    assert multiset(Iota(n - 1)) == multiset(Iota(n)) - multiset{n - 1};
  }

  lemma MultisetWithout<T>(t: seq<T>, k: int)
    requires 0 <= k < |t|
    ensures multiset(t) == multiset(t[..k] + t[k + 1..]) + multiset{t[k]}
  {
    assert t == t[..k] + [t[k]] + t[k + 1..];
  }

  /** Reordering by a permutation keeps every element with its multiplicity. */
  lemma {:induction false} PermutePreservesMultiset<T>(s: seq<T>, p: seq<int>)
    requires IsPermutation(p, |s|)
    ensures InRange(p, |s|)
    ensures multiset(Permute(s, p)) == multiset(s)
    decreases |s|
  {
    PermutationInRange(p, |s|);
    var n := |s|;
    if n > 0 {
      assert n - 1 in multiset(p) by {
        assert Iota(n)[n - 1] == n - 1;
        assert n - 1 in multiset(Iota(n));
      }
      var k :| 0 <= k < |p| && p[k] == n - 1;
      var p' := p[..k] + p[k + 1..];
      RemoveLargest(p, n, k);
      var s' := s[..n - 1];
      PermutePreservesMultiset(s', p');
      var t := Permute(s, p);
      PermuteDropLast(s, p, k);
      MultisetWithout(t, k);
      assert s == s' + [s[n - 1]];
    }
  }

  /** Dropping the last element of `s` and the position that points at it
      from `p` drops the same position from the reordered sequence. */
  lemma PermuteDropLast<T>(s: seq<T>, p: seq<int>, k: int)
    requires |s| > 0 && InRange(p, |s|) && 0 <= k < |p|
    requires InRange(p[..k] + p[k + 1..], |s| - 1)
    ensures Permute(s[..|s| - 1], p[..k] + p[k + 1..]) == Permute(s, p)[..k] + Permute(s, p)[k + 1..]
  {
  }

  lemma {:induction false} DistinctMultiplicity<T>(s: seq<T>, x: T)
    requires Distinct(s)
    ensures multiset(s)[x] <= 1
    decreases |s|
  {
    if s != [] {
      var s' := s[..|s| - 1];
      assert s == s' + [s[|s| - 1]];
      DistinctMultiplicity(s', x);
      assert s[|s| - 1] !in s';
    }
  }

  lemma RepeatedMultiplicity<T>(s: seq<T>, i: int, j: int)
    requires 0 <= i < j < |s| && s[i] == s[j]
    ensures multiset(s)[s[i]] >= 2
  {
    assert s == s[..j] + s[j..];
    assert s[i] in s[..j];
    assert s[j] in s[j..];
  }

  /** Two sequences with the same multiset are both distinct or both not. */
  lemma SameMultisetDistinct<T>(s: seq<T>, t: seq<T>)
    requires multiset(s) == multiset(t) && Distinct(s)
    ensures Distinct(t)
  {
    forall i, j | 0 <= i < j < |t| ensures t[i] != t[j] {
      if t[i] == t[j] {
        RepeatedMultiplicity(t, i, j);
        DistinctMultiplicity(s, t[i]);
      }
    }
  }

  /** The cards a shuffle writes: slot i receives s[p[i]]; slots beyond |p|
      keep the zero card, as Go's zero-valued array does. */
  function Shuffled(s: seq<Card>, p: seq<int>): (r: seq<Card>)
    requires |s| == DeckSize && |p| <= DeckSize && InRange(p, DeckSize)
    ensures |r| == DeckSize
  {
    Permute(s, p) + seq(DeckSize - |p|, _ => Card(0, 0))
  }

  /** Shuffling a deck by a permutation of 0..51 is a permutation of the deck. */
  lemma ShufflePermutes(s: seq<Card>, p: seq<int>)
    requires |s| == DeckSize && IsPermutation(p, DeckSize)
    ensures InRange(p, DeckSize) && |p| == DeckSize
    ensures multiset(Shuffled(s, p)) == multiset(s)
    ensures Distinct(s) ==> Distinct(Shuffled(s, p))
  {
    PermutationInRange(p, DeckSize);
    PermutePreservesMultiset(s, p);
    assert Shuffled(s, p) == Permute(s, p);
    if Distinct(s) {
      SameMultisetDistinct(s, Shuffled(s, p));
    }
  }

  // ---------------------------------------------------------------------
  // The deck object

  class Deck {
    var cards: array<Card>
    /** Number of cards dealt; the next card dealt is cards[drawn]. */
    var drawn: int

    ghost predicate Valid()
      reads this
    {
      cards.Length == DeckSize && 0 <= drawn <= DeckSize
    }

    /** The cards dealt so far, in dealing order. */
    ghost function Dealt(): seq<Card>
      reads this, cards
      requires Valid()
    {
      cards[..drawn]
    }

    /** `newDeck`: fill the slots in suit/rank order, then shuffle by
        `indices`, the permutation `rand.Perm(52)` supplies. */
    constructor NewDeck(indices: seq<int>)
      requires IsPermutation(indices, DeckSize)
      ensures Valid() && fresh(cards) && drawn == 0
      ensures InRange(indices, DeckSize) && cards[..] == Permute(OrderedDeck(), indices)
      ensures multiset(cards[..]) == multiset(OrderedDeck()) && Distinct(cards[..])
    {
      cards := new Card[DeckSize];
      drawn := 0;
      new;
      for suit := 0 to 4
        invariant fresh(cards) && cards.Length == DeckSize && drawn == 0
        invariant forall i :: 0 <= i < suit * 13 ==> cards[i] == OrderedCard(i)
      {
        for rank := 1 to 14
          invariant fresh(cards) && cards.Length == DeckSize && drawn == 0
          invariant forall i :: 0 <= i < suit * 13 + rank - 1 ==> cards[i] == OrderedCard(i)
        {
          OrderedDeckSlot(suit, rank);
          cards[suit * 13 + rank - 1] := Card(suit, rank);
        }
      }
      assert cards[..] == OrderedDeck();
      OrderedDeckComplete();
      ShufflePermutes(cards[..], indices);
      Shuffle(indices);
      assert Shuffled(OrderedDeck(), indices) == Permute(OrderedDeck(), indices);
    }

    /** `Draw`: deal the card under the cursor and advance it; drawing from
        an exhausted deck is a panic in the source, so it is excluded here. */
    method Draw() returns (c: Card)
      requires Valid() && drawn < DeckSize
      modifies this`drawn
      ensures Valid() && drawn == old(drawn) + 1
      ensures c == cards[old(drawn)]
      ensures Dealt() == old(Dealt()) + [c]
      ensures Distinct(cards[..]) ==> c !in old(Dealt())
    {
      c := cards[drawn];
      drawn := drawn + 1;
      assert cards[..drawn] == cards[..drawn - 1] + [c];
    }

    /** `shuffle`: slot i of the new array receives the old slot indices[i];
        the cursor is untouched. */
    method Shuffle(indices: seq<int>)
      requires Valid() && |indices| <= DeckSize && InRange(indices, DeckSize)
      modifies this`cards
      ensures Valid() && fresh(cards)
      ensures cards[..] == Shuffled(old(cards[..]), indices)
    {
      var source := cards;
      var shuffled := new Card[DeckSize](_ => Card(0, 0));
      for i := 0 to |indices|
        invariant forall j :: 0 <= j < i ==> shuffled[j] == source[indices[j]]
        invariant forall j :: i <= j < DeckSize ==> shuffled[j] == Card(0, 0)
      {
        shuffled[i] := source[indices[i]];
      }
      cards := shuffled;
    }
  }

  // ---------------------------------------------------------------------
  // Text form

  function SuitString(suit: int): string {
    if suit == 0 then "\U{2665}\U{FE0F}"
    else if suit == 1 then "\U{2666}\U{FE0F}"
    else if suit == 2 then "\U{2663}\U{FE0F}"
    else if suit == 3 then "\U{2660}\U{FE0F}"
    else "Unknown Suit"
  }

  function RankString(rank: int): string {
    if rank == 1 then "A"
    else if rank == 11 then "J"
    else if rank == 12 then "Q"
    else if rank == 13 then "K"
    else Itoa(rank)
  }

  /** `Card.String`: the rank label followed by the suit symbol. A valid
      card takes 3 or 4 characters, 4 exactly for the ten, none of them a space. */
  function CardString(c: Card): (s: string)
    ensures ValidCard(c) ==> 3 <= |s| <= 4 && (|s| == 4 <==> c.rank == 10)
    ensures ValidCard(c) ==> forall j :: 0 <= j < |s| ==> s[j] != ' '
  {
    RankString(c.rank) + SuitString(c.suit)
  }

  /** The text `PrintCards` produces: each card's text followed by one
      space, in order. */
  function CardsText(cards: seq<Card>): string {
    if cards == [] then "" else CardString(cards[0]) + " " + CardsText(cards[1..])
  }

  /** `PrintCards`: append each card's text and a space. */
  method PrintCards(cards: seq<Card>) returns (cardStrings: string)
    ensures cardStrings == CardsText(cards)
  {
    cardStrings := "";
    for i := 0 to |cards|
      invariant cardStrings == CardsText(cards[..i])
    {
      var card := cards[i];
      PrintCardsAppend(cards[..i], [card]);
      assert cards[..i + 1] == cards[..i] + [card];
      assert CardsText([card]) == CardString(card) + " " + CardsText([]);
      cardStrings := cardStrings + CardString(card) + " ";
    }
    assert cards[..|cards|] == cards;
  }

  // Reading the text form back

  function ParseSuit(s: string): Option<int> {
    if s == SuitString(0) then Some(0)
    else if s == SuitString(1) then Some(1)
    else if s == SuitString(2) then Some(2)
    else if s == SuitString(3) then Some(3)
    else None
  }

  function ParseRank(s: string): Option<int> {
    if s == "A" then Some(1)
    else if s == "J" then Some(11)
    else if s == "Q" then Some(12)
    else if s == "K" then Some(13)
    else match Atoi(s)
      case Some(n) => if 2 <= n <= 10 then Some(n) else None
      case None => None
  }

  /** Parses the text of one valid card: a rank label, then a two-character suit symbol. */
  function ParseCard(s: string): Option<Card> {
    if |s| < 3 then None
    else match (ParseRank(s[..|s| - 2]), ParseSuit(s[|s| - 2..]))
      case (Some(r), Some(su)) => Some(Card(su, r))
      case _ => None
  }

  /** Index of the first space in `s`, or |s| when there is none. */
  function FirstSpace(s: string): (i: nat)
    ensures i <= |s| && (i < |s| ==> s[i] == ' ')
    ensures forall j :: 0 <= j < i ==> s[j] != ' '
  {
    if s == [] then 0 else if s[0] == ' ' then 0 else 1 + FirstSpace(s[1..])
  }

  /** Splits a line at single spaces, each field followed by its space, and parses each card. */
  function ParseCards(s: string): Option<seq<Card>>
    decreases |s|
  {
    if s == [] then Some([])
    else
      var i := FirstSpace(s);
      if i == |s| then None
      else match (ParseCard(s[..i]), ParseCards(s[i + 1..]))
        case (Some(c), Some(rest)) => Some([c] + rest)
        case _ => None
  }

  lemma NatToStringSmall(n: nat)
    requires 2 <= n <= 10
    ensures NatToString(n) == if n < 10 then [DigitChar(n)] else "10"
  {
  }

  /** The text of a valid card reads back as that card. */
  lemma CardStringRoundTrip(c: Card)
    requires ValidCard(c)
    ensures ParseCard(CardString(c)) == Some(c)
  {
    var s := CardString(c);
    assert s[..|s| - 2] == RankString(c.rank);
    assert s[|s| - 2..] == SuitString(c.suit);
    if 2 <= c.rank <= 10 {
      NatToStringSmall(c.rank);
      ItoaRoundTrip(c.rank);
    }
  }

  /** Distinct valid cards have distinct text. */
  lemma CardStringInjective(a: Card, b: Card)
    requires ValidCard(a) && ValidCard(b) && CardString(a) == CardString(b)
    ensures a == b
  {
    CardStringRoundTrip(a);
    CardStringRoundTrip(b);
  }

  /** Printing a concatenation prints the parts one after the other. */
  lemma {:induction false} PrintCardsAppend(a: seq<Card>, b: seq<Card>)
    ensures CardsText(a + b) == CardsText(a) + CardsText(b)
    decreases |a|
  {
    if a == [] {
      assert a + b == b;
    } else {
      var ab := a + b;
      assert ab[0] == a[0];
      assert ab[1..] == a[1..] + b;
      PrintCardsAppend(a[1..], b);
      assert CardsText(ab) == CardString(a[0]) + " " + CardsText(a[1..] + b);
    }
  }

  lemma FirstSpaceAfterWord(w: string, rest: string)
    requires forall j :: 0 <= j < |w| ==> w[j] != ' '
    ensures FirstSpace(w + " " + rest) == |w|
  {
    var s := w + " " + rest;
    assert s[|w|] == ' ';
    assert forall j :: 0 <= j < |w| ==> s[j] == w[j];
  }

  /** One parsing step: a space-free word and its space, then the rest. */
  lemma ParseCardsStep(w: string, rest: string)
    requires forall j :: 0 <= j < |w| ==> w[j] != ' '
    ensures ParseCards(w + " " + rest) ==
      match (ParseCard(w), ParseCards(rest))
        case (Some(c), Some(cs)) => Some([c] + cs)
        case _ => None
  {
    var s := w + " " + rest;
    FirstSpaceAfterWord(w, rest);
    assert s[..|w|] == w;
    assert s[|w| + 1..] == rest;
  }

  /** The printed line of valid cards parses back to the same cards, in order. */
  lemma {:induction false} PrintCardsRoundTrip(cards: seq<Card>)
    requires forall i :: 0 <= i < |cards| ==> ValidCard(cards[i])
    ensures ParseCards(CardsText(cards)) == Some(cards)
    decreases |cards|
  {
    if cards != [] {
      var c, rest := cards[0], cards[1..];
      assert cards == [c] + rest;
      ParseCardsStep(CardString(c), CardsText(rest));
      CardStringRoundTrip(c);
      PrintCardsRoundTrip(rest);
    }
  }
}
