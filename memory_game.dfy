/**
 * The card-matching mini-game of js/games.js (`MemoryMatchGame`): sixteen
 * cards, each of eight flowers twice, shuffled by Fisher-Yates; two cards
 * are turned at a time and a pair that matches stays face up.
 *
 * The cards' `flipped` and `matched` classes are two sets of card indices;
 * the 800 ms delay before `checkMatch` and the 500 ms before the win are left
 * out, each callback being one method call. `Math.random()` values are
 * parameters in `[0, 1)`.
 */
module MemoryGame {

  /** `this.emojis` */
  const Emojis: seq<string> := ["🌸", "🌺", "🌻", "🌼", "🌷", "🌹", "🏵️", "💐"]

  const Pairs: nat := 8
  const CardCount: nat := 16

  /** `[...this.emojis, ...this.emojis]` */
  function Deck(): seq<string> {
    Emojis + Emojis
  }

  /** The deck holds 16 cards and each of the eight flowers exactly twice. */
  lemma DeckHasEachFlowerTwice()
    ensures |Deck()| == CardCount
    ensures forall k :: 0 <= k < |Emojis| ==> multiset(Deck())[Emojis[k]] == 2
    ensures forall e :: e in multiset(Deck()) ==> e in Emojis
  {
    var m := multiset(Emojis);
    assert multiset(Deck()) == m + m;
    assert m == multiset{"🌸", "🌺", "🌻", "🌼", "🌷", "🌹", "🏵️", "💐"};
  }

  // ----------------------------------------------------------------- shuffle

  /** `Math.floor(r * (i + 1))`: the partner of position `i` for the draw `r`. */
  function Pick(r: real, i: nat): (j: nat)
    requires 0.0 <= r < 1.0
    ensures j <= i
  {
    var n := (i + 1) as real;
    ScaleBelow(r, n);
    (r * n).Floor
  }

  /** A fraction of a positive number is below it. */
  lemma ScaleBelow(r: real, n: real)
    requires 0.0 <= r < 1.0 && n > 0.0
    ensures 0.0 <= r * n < n
  {
    var d := 1.0 - r;
    assert d > 0.0;
    assert d * n > 0.0;
    assert r * n == n - d * n;
  }

  function Swap(s: seq<string>, i: nat, j: nat): (r: seq<string>)
    requires i < |s| && j < |s|
  {
    s[i := s[j]][j := s[i]]
  }

  lemma SwapIsPermutation(s: seq<string>, i: nat, j: nat)
    requires i < |s| && j < |s|
    ensures |Swap(s, i, j)| == |s| && multiset(Swap(s, i, j)) == multiset(s)
  {
  }

  predicate Units(rand: seq<real>) {
    forall k :: 0 <= k < |rand| ==> 0.0 <= rand[k] < 1.0
  }

  /**
   * The shuffle loop from position `i` down to 1, position `i` using the draw
   * `rand[|s| - 1 - i]` (the loop's first step uses `rand[0]`).
   */
  function Shuffled(s: seq<string>, rand: seq<real>, i: int): seq<string>
    requires i < |s| && |rand| + 1 >= |s| && Units(rand)
    decreases i
  {
    if i <= 0 then s
    else Shuffled(Swap(s, i, Pick(rand[|s| - 1 - i], i)), rand, i - 1)
  }

  /** Whatever the draws, the shuffle only rearranges the cards. */
  lemma {:induction false} ShuffledIsPermutation(s: seq<string>, rand: seq<real>, i: int)
    requires i < |s| && |rand| + 1 >= |s| && Units(rand)
    ensures |Shuffled(s, rand, i)| == |s| && multiset(Shuffled(s, rand, i)) == multiset(s)
    decreases i
  {
    if i > 0 {
      var j := Pick(rand[|s| - 1 - i], i);
      SwapIsPermutation(s, i, j);
      ShuffledIsPermutation(Swap(s, i, j), rand, i - 1);
    }
  }

  /** A shuffled deck still holds each flower exactly twice, and nothing else. */
  lemma ShuffledDeck(rand: seq<real>)
    requires |rand| + 1 >= CardCount && Units(rand)
    ensures var d := Shuffled(Deck(), rand, CardCount - 1);
      |d| == CardCount &&
      (forall k :: 0 <= k < |Emojis| ==> multiset(d)[Emojis[k]] == 2) &&
      (forall e :: e in multiset(d) ==> e in Emojis)
  {
    DeckHasEachFlowerTwice();
    ShuffledIsPermutation(Deck(), rand, CardCount - 1);
  }

  /** `shuffle(array)`: Fisher-Yates in place, from the last position down to the second. */
  method Shuffle(a: array<string>, rand: seq<real>)
    requires |rand| + 1 >= a.Length && Units(rand)
    modifies a
    ensures a[..] == Shuffled(old(a[..]), rand, a.Length - 1)
    ensures multiset(a[..]) == multiset(old(a[..]))
  {
    var i := a.Length - 1;
    while i > 0
      invariant -1 <= i < a.Length
      invariant i < 0 ==> a.Length == 0
      invariant Shuffled(a[..], rand, i) == Shuffled(old(a[..]), rand, a.Length - 1)
      decreases i
    {
      var j := Pick(rand[a.Length - 1 - i], i);
      assert Swap(a[..], i, j) == a[..][i := a[j]][j := a[i]];
      a[i], a[j] := a[j], a[i];
      i := i - 1;
    }
    ShuffledIsPermutation(old(a[..]), rand, a.Length - 1);
  }

  // -------------------------------------------------------------- the pairs

  /** An entry of `flippedCards`: the card's index and its flower. */
  datatype Flip = Flip(index: nat, emoji: string)

  function Indices(fs: seq<Flip>): set<nat> {
    set k | 0 <= k < |fs| :: fs[k].index
  }

  /** The card positions below `n`. */
  function Range(n: nat): (r: set<nat>)
    ensures |r| == n
    ensures forall i: nat :: i in r <==> i < n
  {
    if n == 0 then {} else Range(n - 1) + {n - 1}
  }

  lemma IndicesAppend(fs: seq<Flip>, f: Flip)
    ensures Indices(fs + [f]) == Indices(fs) + {f.index}
  {
    var gs := fs + [f];
    forall x | x in Indices(fs) ensures x in Indices(gs) {
      var k :| 0 <= k < |fs| && fs[k].index == x;
      assert gs[k] == fs[k];
    }
    assert gs[|fs|] == f;
  }

  /** Cards all below `n`, and `n` of them or more: that is every card below `n`. */
  lemma {:induction false} AllBelow(m: set<nat>, n: nat)
    requires forall i :: i in m ==> i < n
    requires |m| >= n
    ensures forall i: nat :: i < n ==> i in m
  {
    SubsetSize(m, Range(n));
    forall i: nat | i < n ensures i in m {
      if i !in m {
        SubsetSize(m, Range(n) - {i});
        assert false;
      }
    }
  }

  /** Matched cards are two per matched pair, so the pairs never exceed eight, and eight means all. */
  lemma EightPairsMatchAll(matched: set<nat>, pairs: nat)
    requires forall i :: i in matched ==> i < CardCount
    requires |matched| == 2 * pairs
    ensures pairs <= Pairs
    ensures pairs == Pairs ==> forall i: nat :: i < CardCount ==> i in matched
  {
    SubsetSize(matched, Range(CardCount));
    if pairs == Pairs {
      AllBelow(matched, CardCount);
    }
  }

  lemma SubsetSize(a: set<nat>, b: set<nat>)
    requires a <= b
    ensures |a| <= |b|
  {
    assert b == a + (b - a);
  }

  lemma TwoIndices(fs: seq<Flip>)
    requires |fs| == 2
    ensures Indices(fs) == {fs[0].index, fs[1].index}
  {
    assert fs[0].index in Indices(fs) && fs[1].index in Indices(fs);
  }

  lemma NoIndices()
    ensures Indices([]) == {}
  {
  }

  /** The two waiting cards are the only turned unmatched ones: matching or turning them back leaves none. */
  lemma ClearPair(flipped: set<nat>, matched: set<nat>, a: nat, b: nat)
    requires flipped - matched == {a, b}
    ensures a in flipped && b in flipped && a !in matched && b !in matched
    ensures flipped - (matched + {a, b}) == {} && (flipped - {a, b}) - matched == {}
    ensures matched + {a, b} <= flipped + matched && matched <= flipped - {a, b} + matched
  {
    assert a in flipped - matched && b in flipped - matched;
  }

  /** Matching two new cards adds two to the matched count. */
  lemma AddPair(m: set<nat>, a: nat, b: nat)
    requires a != b && a !in m && b !in m
    ensures |m + {a, b}| == |m| + 2
  {
    assert m + {a, b} == (m + {a}) + {b};
  }

  /** `this.shuffle([...this.emojis, ...this.emojis])` on a fresh array. */
  method NewDeck(rand: seq<real>) returns (a: array<string>)
    requires |rand| + 1 >= CardCount && Units(rand)
    ensures fresh(a) && a.Length == CardCount
    ensures a[..] == Shuffled(Deck(), rand, CardCount - 1)
  {
    var deck := Deck();
    a := new string[|deck|](i requires 0 <= i < |deck| => deck[i]);
    assert a[..] == deck;
    Shuffle(a, rand);
  }

  /**
   * The waiting cards are at most two distinct ones, exactly the turned
   * unmatched cards; matched cards stay turned; the matched cards are two per
   * matched pair; every matched pair cost a move, and so did a waiting pair.
   */
  ghost predicate Marks(fs: seq<Flip>, flipped: set<nat>, matched: set<nat>, pairs: int, moves: int) {
    |fs| <= 2 &&
    (|fs| == 2 ==> fs[0].index != fs[1].index) &&
    Indices(fs) == flipped - matched &&
    matched <= flipped && (forall i :: i in flipped ==> i < CardCount) &&
    pairs >= 0 && |matched| == 2 * pairs &&
    moves >= pairs + (if |fs| == 2 then 1 else 0)
  }

  /** Checking a waiting pair: matching it or turning it back leaves the marks consistent with no card waiting. */
  lemma ResolveKeepsMarks(fs: seq<Flip>, flipped: set<nat>, matched: set<nat>, pairs: int, moves: int)
    requires |fs| == 2 && Marks(fs, flipped, matched, pairs, moves)
    ensures var a, b := fs[0].index, fs[1].index;
      Marks([], flipped, matched + {a, b}, pairs + 1, moves) &&
      Marks([], flipped - {a, b}, matched, pairs, moves)
  {
    var a, b := fs[0].index, fs[1].index;
    TwoIndices(fs);
    ClearPair(flipped, matched, a, b);
    AddPair(matched, a, b);
    NoIndices();
  }

  class MemoryMatchGame {
    var cards: array<string>
    var flippedCards: seq<Flip>
    var matchedPairs: int
    var moves: int
    var canFlip: bool
    /** The cards with the `flipped` class. */
    var flipped: set<nat>
    /** The cards with the `matched` class. */
    var matched: set<nat>

    /**
     * The deck is 16 cards; at most two are turned awaiting the check, each
     * showing its own card's flower; clicks are refused while two wait; and
     * the turned and matched marks agree with the counters (`Marks`).
     */
    ghost predicate Valid()
      reads this, cards
    {
      cards.Length == CardCount &&
      (canFlip <==> |flippedCards| < 2) &&
      (forall k :: 0 <= k < |flippedCards| ==>
         flippedCards[k].index < CardCount && flippedCards[k].emoji == cards[flippedCards[k].index]) &&
      Marks(flippedCards, flipped, matched, matchedPairs, moves)
    }

    /** `new MemoryMatchGame(container)`: a shuffled deck of eight pairs, face down. */
    constructor (rand: seq<real>)
      requires |rand| + 1 >= CardCount && Units(rand)
      ensures Valid() && fresh(cards)
      ensures cards[..] == Shuffled(Deck(), rand, CardCount - 1)
      ensures flippedCards == [] && matchedPairs == 0 && moves == 0 && canFlip
      ensures flipped == {} && matched == {}
    {
      flippedCards := [];
      matchedPairs := 0;
      moves := 0;
      canFlip := true;
      flipped := {};
      matched := {};
      var deck := NewDeck(rand);
      cards := deck;
      NoIndices();
    }

    /**
     * `flipCard(index)`: refused while two cards wait or when the card is
     * already turned or matched; otherwise the card turns, and the second turn
     * of a pair blocks further clicks and counts a move.
     */
    method FlipCard(index: nat)
      requires Valid() && index < CardCount
      modifies this`flipped, this`flippedCards, this`canFlip, this`moves
      ensures Valid()
      ensures var refused := !old(canFlip) || index in old(flipped) || index in old(matched);
        (refused ==> flipped == old(flipped) && flippedCards == old(flippedCards) &&
                     canFlip == old(canFlip) && moves == old(moves)) &&
        (!refused ==>
           flipped == old(flipped) + {index} &&
           flippedCards == old(flippedCards) + [Flip(index, cards[index])] &&
           (|flippedCards| == 2 <==> !canFlip) &&
           moves == old(moves) + (if |flippedCards| == 2 then 1 else 0))
    {
      if !canFlip {
        return;
      }
      if index in flipped || index in matched {
        return;
      }
      flipped := flipped + {index};
      ghost var before := flippedCards;
      flippedCards := flippedCards + [Flip(index, cards[index])];
      IndicesAppend(before, Flip(index, cards[index]));
      if |flippedCards| == 2 {
        canFlip := false;
        moves := moves + 1;
      }
    }

    /**
     * `checkMatch()`: equal flowers stay up as a matched pair, different ones
     * turn back; either way the flips are cleared and clicks allowed again.
     * With fewer than two waiting cards (a restart came in between) reading
     * `card1.emoji` or `card2.emoji` throws a TypeError and nothing changes:
     * `ok` is false. `won` is true when the eighth pair was just matched.
     */
    method CheckMatch() returns (ok: bool, won: bool)
      requires Valid()
      modifies this`flipped, this`matched, this`matchedPairs, this`flippedCards, this`canFlip
      ensures Valid()
      ensures ok == (|old(flippedCards)| == 2)
      ensures !ok ==> flipped == old(flipped) && matched == old(matched) &&
                      matchedPairs == old(matchedPairs) && flippedCards == old(flippedCards) && !won
      ensures ok ==>
        var c1, c2 := old(flippedCards)[0], old(flippedCards)[1];
        flippedCards == [] && canFlip &&
        (c1.emoji == c2.emoji ==>
           matched == old(matched) + {c1.index, c2.index} && flipped == old(flipped) &&
           matchedPairs == old(matchedPairs) + 1) &&
        (c1.emoji != c2.emoji ==>
           flipped == old(flipped) - {c1.index, c2.index} && matched == old(matched) &&
           matchedPairs == old(matchedPairs)) &&
        (won <==> matchedPairs == Pairs)
      ensures won ==> forall i: nat :: i < CardCount ==> i in matched
    {
      if |flippedCards| < 2 {
        return false, false;
      }
      var card1, card2 := flippedCards[0], flippedCards[1];
      ResolveKeepsMarks(flippedCards, flipped, matched, matchedPairs, moves);
      won := false;
      if card1.emoji == card2.emoji {
        matched := matched + {card1.index, card2.index};
        matchedPairs := matchedPairs + 1;
        if matchedPairs == 8 {
          won := true;
        }
      } else {
        flipped := flipped - {card1.index, card2.index};
      }
      flippedCards := [];
      canFlip := true;
      ok := true;
      EightPairsMatchAll(matched, matchedPairs);
    }

    /** `reset()`: a freshly shuffled deck, nothing turned, the counters back to zero. */
    method Reset(rand: seq<real>)
      requires |rand| + 1 >= CardCount && Units(rand)
      modifies this
      ensures Valid() && fresh(cards)
      ensures cards[..] == Shuffled(Deck(), rand, CardCount - 1)
      ensures flippedCards == [] && matchedPairs == 0 && moves == 0 && canFlip
      ensures flipped == {} && matched == {}
    {
      flippedCards := [];
      matchedPairs := 0;
      moves := 0;
      canFlip := true;
      cards := NewDeck(rand);
      flipped := {};
      matched := {};
      NoIndices();
    }
  }
}
