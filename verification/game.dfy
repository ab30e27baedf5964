/** Hand scoring, legal-move masks and the player-side game state of
    game/game.go. The state is an object whose methods update it in place,
    as the source's methods on `*GameState` do. */
module Game {
  import opened Strconv
  import opened Cards

  // ---------------------------------------------------------------------
  // Scoring

  /** Points of one card in the hard score: J, Q, K count 10, everything
      else its rank (so an ace counts 1). */
  function CardPoints(c: Card): int {
    if c.rank > 10 then 10 else c.rank
  }

  /** The hard score of a hand: the sum of its card points. */
  function HardScore(hand: seq<Card>): int {
    if hand == [] then 0 else HardScore(hand[..|hand| - 1]) + CardPoints(hand[|hand| - 1])
  }

  /** `calculateScore`: add 10 for a face card and the rank otherwise. */
  method CalculateScore(hand: seq<Card>) returns (score: int)
    ensures score == HardScore(hand)
  {
    score := 0;
    for i := 0 to |hand|
      invariant score == HardScore(hand[..i])
    {
      assert hand[..i + 1][..i] == hand[..i];
      var card := hand[i];
      if card.rank > 10 {
        score := score + 10;
        continue;
      }
      score := score + card.rank;
    }
    assert hand[..|hand|] == hand;
  }

  predicate HasAce(hand: seq<Card>) {
    exists i :: 0 <= i < |hand| && hand[i].rank == 1
  }

  /** Extending a prefix by one card adds an ace exactly when that card is one. */
  lemma HasAcePrefix(hand: seq<Card>, i: int)
    requires 0 <= i < |hand|
    ensures HasAce(hand[..i + 1]) <==> HasAce(hand[..i]) || hand[i].rank == 1
  {
    var pre, ext := hand[..i], hand[..i + 1];
    if HasAce(pre) {
      var j :| 0 <= j < |pre| && pre[j].rank == 1;
      assert ext[j].rank == 1;
    }
    if hand[i].rank == 1 {
      assert ext[i].rank == 1;
    }
    if HasAce(ext) {
      var j :| 0 <= j < |ext| && ext[j].rank == 1;
      if j < i { assert pre[j].rank == 1; }
    }
  }

  predicate ValidHand(hand: seq<Card>) {
    forall i :: 0 <= i < |hand| ==> ValidCard(hand[i])
  }

  lemma {:induction false} ScoreAppend(a: seq<Card>, b: seq<Card>)
    ensures HardScore(a + b) == HardScore(a) + HardScore(b)
    decreases |b|
  {
    if b == [] {
      assert a + b == a;
    } else {
      var ab := a + b;
      assert ab[..|ab| - 1] == a + b[..|b| - 1];
      assert ab[|ab| - 1] == b[|b| - 1];
      ScoreAppend(a, b[..|b| - 1]);
    }
  }

  /** Taking one card out of a hand lowers the score by that card's points. */
  lemma ScoreRemove(b: seq<Card>, k: int)
    requires 0 <= k < |b|
    ensures HardScore(b) == HardScore(b[..k] + b[k + 1..]) + CardPoints(b[k])
  {
    var pre, x, post := b[..k], b[k], b[k + 1..];
    assert b == pre + ([x] + post);
    ScoreAppend(pre, [x] + post);
    ScoreAppend([x], post);
    ScoreAppend(pre, post);
    ScoreSingle(x);
  }

  lemma ScoreSingle(x: Card)
    ensures HardScore([x]) == CardPoints(x)
  {
    assert [x][..0] == [];
  }

  /** The score does not depend on the order of the cards. */
  lemma {:induction false} ScoreOrderIndependent(a: seq<Card>, b: seq<Card>)
    requires multiset(a) == multiset(b)
    ensures HardScore(a) == HardScore(b)
    decreases |a|
  {
    if a != [] {
      var a', x := a[..|a| - 1], a[|a| - 1];
      assert a == a' + [x];
      assert x in multiset(b);
      var k :| 0 <= k < |b| && b[k] == x;
      var b' := b[..k] + b[k + 1..];
      MultisetWithout(b, k);
      assert multiset(a') == multiset(a) - multiset{x};
      ScoreOrderIndependent(a', b');
      ScoreRemove(b, k);
    } else {
      assert |b| == |multiset(b)| == 0;
    }
  }

  /** A hand of n valid cards scores between n (all aces) and 10n. */
  lemma {:induction false} ScoreBounds(hand: seq<Card>)
    requires ValidHand(hand)
    ensures |hand| <= HardScore(hand) <= 10 * |hand|
  {
    if hand != [] {
      ScoreBounds(hand[..|hand| - 1]);
    }
  }

  // ---------------------------------------------------------------------
  // Score display

  /** What the single pass of `printScore` computes: the running score and
      whether an ace was seen. */
  function ScoreScan(hand: seq<Card>): (int, bool) {
    if hand == [] then (0, false)
    else
      var (score, ace) := ScoreScan(hand[..|hand| - 1]);
      var c := hand[|hand| - 1];
      if c.rank > 10 then (score + 10, ace)
      else if c.rank == 1 then (score + c.rank, true)
      else (score + c.rank, ace)
  }

  /** The text `printScore` returns: the score, and "/" with the soft total
      when an ace can count 11. */
  function ScoreText(hand: seq<Card>): string {
    var (score, ace) := ScoreScan(hand);
    Itoa(score) + if ace && score <= 11 then "/" + Itoa(score + 10) else ""
  }

  /** `printScore`: one pass over the cards, then the text. */
  method PrintScore(hand: seq<Card>) returns (x: string)
    ensures x == ScoreText(hand)
  {
    var score := 0;
    var ace := false;
    for i := 0 to |hand|
      invariant (score, ace) == ScoreScan(hand[..i])
    {
      assert hand[..i + 1][..i] == hand[..i];
      var card := hand[i];
      if card.rank > 10 {
        score := score + 10;
        continue;
      } else if card.rank == 1 {
        ace := true;
      }
      score := score + card.rank;
    }
    assert hand[..|hand|] == hand;
    x := Itoa(score);
    if ace && score <= 11 {
      x := x + "/" + Itoa(score + 10);
    }
  }

  lemma {:induction false} ScoreScanMeaning(hand: seq<Card>)
    ensures ScoreScan(hand) == (HardScore(hand), HasAce(hand))
  {
    if hand != [] {
      var init := hand[..|hand| - 1];
      ScoreScanMeaning(init);
      if HasAce(init) {
        var i :| 0 <= i < |init| && init[i].rank == 1;
        assert hand[i].rank == 1;
      }
      if HasAce(hand) {
        var i :| 0 <= i < |hand| && hand[i].rank == 1;
        if i < |init| { assert init[i].rank == 1; }
      }
    }
  }

  /** The displayed leading number is the hard score; the "/soft" part
      appears exactly when the hand holds an ace and the hard score is at most 11. */
  lemma PrintScoreMeaning(hand: seq<Card>)
    ensures ScoreText(hand) ==
      Itoa(HardScore(hand)) +
      if HasAce(hand) && HardScore(hand) <= 11 then "/" + Itoa(HardScore(hand) + 10) else ""
  {
    ScoreScanMeaning(hand);
    var scan := ScoreScan(hand);
    assert scan.0 == HardScore(hand) && scan.1 == HasAce(hand);
  }

  /** The hard score reads back from the front of the display. */
  lemma PrintScoreLeadingNumber(hand: seq<Card>)
    ensures var s := Itoa(HardScore(hand)); |s| <= |ScoreText(hand)| && ScoreText(hand)[..|s|] == s
    ensures Atoi(Itoa(HardScore(hand))) == Some(HardScore(hand))
  {
    PrintScoreMeaning(hand);
    ItoaRoundTrip(HardScore(hand));
  }

  // ---------------------------------------------------------------------
  // Move bit masks

  const HitMask: int := 1     // 0b001
  const DoubleMask: int := 2  // 0b010
  const SplitMask: int := 4   // 0b100

  /** Go's `m & bit != 0` for a single-bit mask; Euclidean division reads
      the two's-complement bit, so this holds for negative m too. */
  predicate HasBit(m: int, bit: int)
    requires bit > 0
  {
    (m / bit) % 2 == 1
  }

  /** Go's `m |= bit` for a single-bit mask. */
  function SetBit(m: int, bit: int): int
    requires bit > 0
  {
    if HasBit(m, bit) then m else m + bit
  }

  /** The mask `calcPlayMoves` computes for a hand with the given stored score. */
  function LegalMoves(score: int, hand: seq<Card>): int
    requires |hand| >= 2
  {
    var m := HitMask;
    var m := if score < 21 then SetBit(m, DoubleMask) else m;
    if hand[0].rank == hand[1].rank then SetBit(m, SplitMask) else m
  }

  /** Hit is always offered, double exactly below 21, split exactly for a
      first pair of equal rank; nothing else is set. */
  lemma LegalMovesBits(score: int, hand: seq<Card>)
    requires |hand| >= 2
    ensures var m := LegalMoves(score, hand);
      && m in {1, 3, 5, 7}
      && HasBit(m, HitMask)
      && (HasBit(m, DoubleMask) <==> score < 21)
      && (HasBit(m, SplitMask) <==> hand[0].rank == hand[1].rank)
  {
  }

  /** The codes `ActionCalc` accepts: hit, double, split. Every other code,
      0 for stand included, reaches its panic. */
  predicate AcceptedMove(move: int) {
    move == HitMask || move == DoubleMask || move == SplitMask
  }

  // ---------------------------------------------------------------------
  // Game state

  class GameState {
    var deck: Deck
    /** Index of the player hand to act next. */
    var handToPlay: int
    var playerMoves: seq<int>
    var playerHand: seq<seq<Card>>
    var playerScore: seq<int>
    var playerAce: seq<bool>
    var dealerHand: seq<Card>
    var dealerScore: int

    /** The parallel per-hand slices have one entry per hand. */
    ghost predicate Valid()
      reads this, deck
    {
      && deck.Valid()
      && 0 <= handToPlay
      && |playerScore| == |playerHand|
      && |playerAce| == |playerHand|
      && |playerMoves| == |playerHand|
    }

    /** The acting hand exists and holds at least the two cards the move
        computation looks at. */
    ghost predicate CanComputeMoves(h: int)
      reads this
    {
      0 <= h < |playerHand| && |playerHand[h]| >= 2
    }

    /** `calcPlayMoves`: recompute the legal-move mask of the acting hand only. */
    method CalcPlayMoves()
      requires Valid() && CanComputeMoves(handToPlay)
      modifies this`playerMoves
      ensures Valid()
      ensures playerMoves ==
        old(playerMoves)[handToPlay := LegalMoves(playerScore[handToPlay], playerHand[handToPlay])]
    {
      var playerMove := handToPlay;
      var legalMoves := HitMask;
      if playerScore[playerMove] < 21 {
        legalMoves := SetBit(legalMoves, DoubleMask);
      }
      if playerHand[playerMove][0].rank == playerHand[playerMove][1].rank {
        legalMoves := SetBit(legalMoves, SplitMask);
      }
      playerMoves := playerMoves[playerMove := legalMoves];
    }

    /** `ActionCalc`: double passes the turn to the next hand; hit and split
        keep it. No card is drawn and no hand changes. Afterwards the mask
        of the acting hand is recomputed unless every hand has been played. */
    method ActionCalc(playerMove: int)
      requires Valid() && AcceptedMove(playerMove)
      requires playerMove != DoubleMask ==> CanComputeMoves(handToPlay)
      requires playerMove == DoubleMask && handToPlay + 1 < |playerHand| ==> CanComputeMoves(handToPlay + 1)
      modifies this`handToPlay, this`playerMoves
      ensures Valid()
      ensures handToPlay == old(handToPlay) + if playerMove == DoubleMask then 1 else 0
      ensures handToPlay < |playerHand| ==>
        playerMoves == old(playerMoves)[handToPlay := LegalMoves(playerScore[handToPlay], playerHand[handToPlay])]
      ensures handToPlay >= |playerHand| ==> playerMoves == old(playerMoves)
    {
      var activeTurn := true;
      if playerMove == 0 {
        activeTurn := false;
      }
      if playerMove == HitMask {
      } else if playerMove == DoubleMask {
        activeTurn := false;
      } else if playerMove == SplitMask {
      } else {
        assert false;
      }
      if !activeTurn {
        handToPlay := handToPlay + 1;
        if handToPlay >= |playerHand| {
          return;
        }
      }
      CalcPlayMoves();
    }

    /** `ActionCalc` as its comments and its caller intend it: stand (code 0)
        passes the turn like double does, instead of reaching the panic. */
    method ActionCalcWithStand(playerMove: int)
      requires Valid() && (playerMove == 0 || AcceptedMove(playerMove))
      requires (playerMove == HitMask || playerMove == SplitMask) ==> CanComputeMoves(handToPlay)
      requires (playerMove == 0 || playerMove == DoubleMask) && handToPlay + 1 < |playerHand| ==> CanComputeMoves(handToPlay + 1)
      modifies this`handToPlay, this`playerMoves
      ensures Valid()
      ensures handToPlay == old(handToPlay) + if playerMove == 0 || playerMove == DoubleMask then 1 else 0
      ensures handToPlay < |playerHand| ==>
        playerMoves == old(playerMoves)[handToPlay := LegalMoves(playerScore[handToPlay], playerHand[handToPlay])]
      ensures handToPlay >= |playerHand| ==> playerMoves == old(playerMoves)
    {
      var activeTurn := true;
      if playerMove == 0 {
        activeTurn := false;
      } else if playerMove == HitMask {
      } else if playerMove == DoubleMask {
        activeTurn := false;
      } else if playerMove == SplitMask {
      } else {
        assert false;
      }
      if !activeTurn {
        handToPlay := handToPlay + 1;
        if handToPlay >= |playerHand| {
          return;
        }
      }
      CalcPlayMoves();
    }

    /** `UpdatePlayerState`: store the acting hand's score and ace flag, then
        recompute its moves. */
    method UpdatePlayerState()
      requires Valid() && CanComputeMoves(handToPlay)
      modifies this`playerScore, this`playerAce, this`playerMoves
      ensures Valid()
      ensures var h, hand := handToPlay, playerHand[handToPlay];
        && playerScore == old(playerScore)[h := HardScore(hand)]
        && playerAce == old(playerAce)[h := HasAce(hand)]
        && playerMoves == old(playerMoves)[h := LegalMoves(HardScore(hand), hand)]
    {
      var ind := handToPlay;
      var hand := playerHand[ind];
      var score := CalculateScore(hand);
      playerScore := playerScore[ind := score];
      playerAce := playerAce[ind := false];
      var i := 0;
      while i < |hand|
        invariant 0 <= i <= |hand|
        invariant playerAce == old(playerAce)[ind := false]
        invariant forall j :: 0 <= j < i ==> hand[j].rank != 1
      {
        if hand[i].rank == 1 {
          playerAce := playerAce[ind := true];
          break;
        }
        i := i + 1;
      }
      CalcPlayMoves();
    }

    /** `dealInitialCards`: the next two cards become one new player hand,
        the following two go to the dealer; one entry is appended to each
        per-hand slice. */
    method DealInitialCards()
      requires Valid() && deck.drawn + 4 <= DeckSize
      modifies this`playerHand, this`dealerHand, this`playerScore, this`playerAce, this`playerMoves, deck`drawn
      ensures Valid() && deck.drawn == old(deck.drawn) + 4
      ensures var d := old(deck.drawn);
        && playerHand == old(playerHand) + [deck.cards[d..d + 2]]
        && dealerHand == old(dealerHand) + deck.cards[d + 2..d + 4]
      ensures playerScore == old(playerScore) + [HardScore(playerHand[|playerHand| - 1])]
      ensures playerAce == old(playerAce) + [false]
      ensures playerMoves == old(playerMoves) + [HitMask]
    {
      var hand: seq<Card> := [];
      for i := 0 to 2
        invariant Valid() && deck.drawn == old(deck.drawn) + i
        invariant hand == deck.cards[old(deck.drawn)..deck.drawn]
        invariant playerHand == old(playerHand) && dealerHand == old(dealerHand)
        invariant playerScore == old(playerScore) && playerAce == old(playerAce) && playerMoves == old(playerMoves)
      {
        var c := deck.Draw();
        hand := hand + [c];
      }
      playerHand := playerHand + [hand];
      assert deck.cards[deck.drawn..deck.drawn] == [];
      for i := 0 to 2
        invariant deck.Valid() && deck.drawn == old(deck.drawn) + 2 + i
        invariant dealerHand == old(dealerHand) + deck.cards[old(deck.drawn) + 2..deck.drawn]
        invariant playerHand == old(playerHand) + [hand] && hand == deck.cards[old(deck.drawn)..old(deck.drawn) + 2]
        invariant playerScore == old(playerScore) && playerAce == old(playerAce) && playerMoves == old(playerMoves)
      {
        var c := deck.Draw();
        dealerHand := dealerHand + [c];
      }
      var score := CalculateScore(hand);
      playerScore := playerScore + [score];
      playerAce := playerAce + [false];
      playerMoves := playerMoves + [HitMask];
    }

    /** `StartGame`, with the shuffle permutation supplied: a fresh deck, one
        two-card player hand, two dealer cards, the first hand to act. */
    constructor StartGame(indices: seq<int>)
      requires IsPermutation(indices, DeckSize)
      ensures Valid() && fresh(deck) && fresh(deck.cards)
      ensures InRange(indices, DeckSize) && deck.cards[..] == Permute(OrderedDeck(), indices)
      ensures deck.drawn == 4 && handToPlay == 0
      ensures playerHand == [deck.cards[0..2]] && dealerHand == deck.cards[2..4]
      ensures var hand := playerHand[0];
        && playerScore == [HardScore(hand)]
        && playerAce == [HasAce(hand)]
        && playerMoves == [LegalMoves(HardScore(hand), hand)]
      ensures dealerScore == 0
      ensures Distinct(deck.cards[..4])
    {
      deck := new Deck.NewDeck(indices);
      handToPlay := 0;
      playerMoves := [];
      playerHand := [];
      playerScore := [];
      playerAce := [];
      dealerHand := [];
      dealerScore := 0;
      new;
      DealInitialCards();
      UpdatePlayerState();
      assert deck.cards[..4] == deck.cards[..][..4];
    }
  }
}
