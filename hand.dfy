/** Hand arithmetic: the ace-demoting total and the blackjack, bust and soft queries
    (blackjack/hand.py). */
module Hands {
  import opened Cards

  /** Every card's rank has an entry in the value table (otherwise the source's
      table lookup fails). */
  predicate Valued(cards: seq<Card>) {
    forall i :: 0 <= i < |cards| ==> cards[i].rank in VALUES
  }

  /** Cards of the standard deck are always valued. */
  lemma StandardCardsAreValued(cards: seq<Card>)
    requires AllStandard(cards)
    ensures Valued(cards)
  {
    forall i | 0 <= i < |cards|
      ensures cards[i].rank in VALUES
    {
      Cards.StandardIsValued(cards[i]);
    }
  }

  predicate IsAce(c: Card) {
    c.rank == "A"
  }

  /** A valued rank is worth 2 to 11, and 11 exactly when it is the Ace. */
  lemma RankValue(c: Card)
    requires c.rank in VALUES
    ensures 2 <= VALUES[c.rank] <= 11
    ensures VALUES[c.rank] == 11 <==> IsAce(c)
  {
  }

  /** Sum of the table values, every Ace at 11. */
  function RawSum(cards: seq<Card>): nat
    requires Valued(cards)
  {
    if cards == [] then 0
    else RawSum(cards[..|cards| - 1]) + VALUES[cards[|cards| - 1].rank]
  }

  /** 1 for an Ace, 0 otherwise. */
  function AceBit(c: Card): nat {
    if IsAce(c) then 1 else 0
  }

  /** Number of Aces in the hand. */
  function AceCount(cards: seq<Card>): (n: nat)
    ensures n <= |cards|
  {
    if cards == [] then 0
    else AceCount(cards[..|cards| - 1]) + AceBit(cards[|cards| - 1])
  }

  /** Value of a card with an Ace counted as 1. */
  function HardValue(c: Card): nat
    requires c.rank in VALUES
  {
    if IsAce(c) then 1 else VALUES[c.rank]
  }

  /** The hard sum: every Ace counted as 1. Each card adds at least 1. */
  function HardSum(cards: seq<Card>): (h: nat)
    requires Valued(cards)
    ensures h >= |cards|
  {
    if cards == [] then 0
    else
      var last := cards[|cards| - 1];
      assert last.rank in VALUES;
      RankValue(last);
      HardSum(cards[..|cards| - 1]) + HardValue(last)
  }

  /** Appending a card adds its value to each of the sums. */
  lemma SumsAppend(cards: seq<Card>, c: Card)
    requires Valued(cards) && c.rank in VALUES
    ensures Valued(cards + [c])
    ensures RawSum(cards + [c]) == RawSum(cards) + VALUES[c.rank]
    ensures HardSum(cards + [c]) == HardSum(cards) + HardValue(c)
    ensures AceCount(cards + [c]) == AceCount(cards) + AceBit(c)
    ensures HardValue(c) >= 1
  {
    assert (cards + [c])[..|cards|] == cards;
    RankValue(c);
  }

  /** The raw sum counts each Ace 10 more than the hard sum. */
  lemma {:induction false} RawIsHardPlusAces(cards: seq<Card>)
    requires Valued(cards)
    ensures RawSum(cards) == HardSum(cards) + 10 * AceCount(cards)
  {
    if cards != [] {
      RawIsHardPlusAces(cards[..|cards| - 1]);
    }
  }

  function Min(a: int, b: int): int {
    if a <= b then a else b
  }

  /** How many Aces the total counts as 1: none while the raw sum is at most 21,
      otherwise as few as bring it to 21 or below, capped by the number of Aces. */
  function Demotions(cards: seq<Card>): (k: nat)
    requires Valued(cards)
    ensures k <= AceCount(cards)
    ensures k > 0 ==> RawSum(cards) - 10 * (k - 1) > 21
    ensures k < AceCount(cards) ==> RawSum(cards) - 10 * k <= 21
  {
    var raw := RawSum(cards);
    if raw <= 21 then 0 else Min(AceCount(cards), (raw - 12) / 10)
  }

  /** The three properties of Demotions determine it. */
  lemma DemotionsUnique(cards: seq<Card>, k: nat)
    requires Valued(cards)
    requires k <= AceCount(cards)
    requires k > 0 ==> RawSum(cards) - 10 * (k - 1) > 21
    requires k < AceCount(cards) ==> RawSum(cards) - 10 * k <= 21
    ensures k == Demotions(cards)
  {
  }

  /** The hand total, as the source's `total` computes it. */
  function TotalOf(cards: seq<Card>): (t: int)
    requires Valued(cards)
    ensures RawSum(cards) <= 21 ==> t == RawSum(cards)
    ensures HardSum(cards) <= t <= RawSum(cards)
    ensures t <= 21 || t == HardSum(cards)
  {
    RawIsHardPlusAces(cards);
    RawSum(cards) - 10 * Demotions(cards)
  }

  /** The value of the hand when the i-th card, if an Ace, counts as 1 exactly when low[i]:
      one of the valuations that value each Ace independently as 1 or 11. */
  function ValueWith(cards: seq<Card>, low: seq<bool>): int
    requires Valued(cards) && |low| == |cards|
  {
    if cards == [] then 0
    else
      var n := |cards| - 1;
      ValueWith(cards[..n], low[..n])
        + (if IsAce(cards[n]) && low[n] then 1 else VALUES[cards[n].rank])
  }

  /** Number of Aces that a valuation counts as 1. */
  function LowAces(cards: seq<Card>, low: seq<bool>): nat
    requires |low| == |cards|
  {
    if cards == [] then 0
    else
      var n := |cards| - 1;
      LowAces(cards[..n], low[..n]) + (if IsAce(cards[n]) && low[n] then 1 else 0)
  }

  /** Every valuation is the raw sum less 10 per Ace it counts as 1. */
  lemma {:induction false} ValueWithShape(cards: seq<Card>, low: seq<bool>)
    requires Valued(cards) && |low| == |cards|
    ensures LowAces(cards, low) <= AceCount(cards)
    ensures ValueWith(cards, low) == RawSum(cards) - 10 * LowAces(cards, low)
  {
    if cards != [] {
      var n := |cards| - 1;
      ValueWithShape(cards[..n], low[..n]);
    }
  }

  /** The valuation that counts the last k Aces as 1. */
  function LowestAces(cards: seq<Card>, k: nat): (low: seq<bool>)
    ensures |low| == |cards|
  {
    if cards == [] then []
    else
      var n := |cards| - 1;
      if IsAce(cards[n]) && k > 0 then LowestAces(cards[..n], k - 1) + [true]
      else LowestAces(cards[..n], k) + [false]
  }

  lemma {:induction false} LowestAcesCount(cards: seq<Card>, k: nat)
    ensures LowAces(cards, LowestAces(cards, k)) == Min(k, AceCount(cards))
  {
    if cards != [] {
      var n := |cards| - 1;
      var low := LowestAces(cards, k);
      if IsAce(cards[n]) && k > 0 {
        LowestAcesCount(cards[..n], k - 1);
        assert low[..n] == LowestAces(cards[..n], k - 1);
      } else {
        LowestAcesCount(cards[..n], k);
        assert low[..n] == LowestAces(cards[..n], k);
      }
    }
  }

  /** The total is one of the hand's valuations. */
  lemma {:induction false} TotalIsAchievable(cards: seq<Card>)
    requires Valued(cards)
    ensures exists low :: |low| == |cards| && ValueWith(cards, low) == TotalOf(cards)
  {
    var k := Demotions(cards);
    var low := LowestAces(cards, k);
    LowestAcesCount(cards, k);
    assert LowAces(cards, low) == k;
    ValueWithShape(cards, low);
    assert ValueWith(cards, low) == RawSum(cards) - 10 * k == TotalOf(cards);
  }

  /** The total is the best valuation: no valuation at most 21 beats it, and when even the
      total busts, every valuation busts at least as badly. */
  lemma TotalIsBestValuation(cards: seq<Card>, low: seq<bool>)
    requires Valued(cards) && |low| == |cards|
    ensures ValueWith(cards, low) <= 21 ==> ValueWith(cards, low) <= TotalOf(cards)
    ensures TotalOf(cards) > 21 ==> ValueWith(cards, low) >= TotalOf(cards)
  {
    ValueWithShape(cards, low);
    RawIsHardPlusAces(cards);
    var j, k := LowAces(cards, low), Demotions(cards);
    if j < k {
      assert RawSum(cards) - 10 * j >= RawSum(cards) - 10 * (k - 1);
    }
  }

  /** A natural: exactly two cards totalling 21. */
  predicate Natural(cards: seq<Card>)
    requires Valued(cards)
  {
    |cards| == 2 && TotalOf(cards) == 21
  }

  /** Bust: the total is over 21. */
  predicate Bust(cards: seq<Card>)
    requires Valued(cards)
  {
    TotalOf(cards) > 21
  }

  predicate HasAce(cards: seq<Card>) {
    exists i :: 0 <= i < |cards| && IsAce(cards[i])
  }

  /** Soft, as the source decides it: an Ace is present and the raw sum, every Ace at 11,
      is at most 21. */
  predicate Soft(cards: seq<Card>)
    requires Valued(cards)
  {
    HasAce(cards) && RawSum(cards) <= 21
  }

  lemma {:induction false} HasAceCount(cards: seq<Card>)
    ensures HasAce(cards) <==> AceCount(cards) > 0
  {
    if cards != [] {
      var n := |cards| - 1;
      HasAceCount(cards[..n]);
      if HasAce(cards[..n]) {
        var i :| 0 <= i < n && IsAce(cards[..n][i]);
        assert IsAce(cards[i]);
      }
      if HasAce(cards) && !IsAce(cards[n]) {
        var i :| 0 <= i < |cards| && IsAce(cards[i]);
        assert IsAce(cards[..n][i]);
      }
    }
  }

  /** A natural is an Ace with a ten-valued card, in either order. */
  lemma NaturalIsAceAndTen(cards: seq<Card>)
    requires Valued(cards)
    ensures Natural(cards) <==>
      |cards| == 2 &&
      ((IsAce(cards[0]) && VALUES[cards[1].rank] == 10) ||
       (IsAce(cards[1]) && VALUES[cards[0].rank] == 10))
  {
    if |cards| == 2 {
      var a, b := cards[0], cards[1];
      SumsAppend([], a);
      SumsAppend([a], b);
      assert cards == [a] + [b];
      RankValue(a);
      RankValue(b);
      assert TotalOf(cards) == 21 <==> RawSum(cards) == 21;
    }
  }

  /** A hand busts exactly when it busts with every Ace counted as 1. */
  lemma BustIffHardBust(cards: seq<Card>)
    requires Valued(cards)
    ensures Bust(cards) <==> HardSum(cards) > 21
  {
  }

  /** A natural never busts. */
  lemma NaturalIsNotBust(cards: seq<Card>)
    requires Valued(cards)
    ensures Natural(cards) ==> !Bust(cards)
  {
  }

  /** What the soft test means: the hand holds exactly one Ace, it is counted as 11,
      and the total is the raw sum. A hand with two or more Aces is never soft. */
  lemma SoftMeansSingleAceAtEleven(cards: seq<Card>)
    requires Valued(cards)
    ensures Soft(cards) <==> AceCount(cards) == 1 && RawSum(cards) <= 21
    ensures Soft(cards) ==> Demotions(cards) == 0 && TotalOf(cards) == RawSum(cards)
                            && TotalOf(cards) == HardSum(cards) + 10
  {
    HasAceCount(cards);
    RawIsHardPlusAces(cards);
  }

  /** Some Ace is still counted as 11 in the total (the usual meaning of a soft hand). */
  predicate CountsAnAceAsEleven(cards: seq<Card>)
    requires Valued(cards)
  {
    Demotions(cards) < AceCount(cards)
  }

  /** As written, the soft test implies that an Ace is counted as 11. */
  lemma SoftCountsAnAceAsEleven(cards: seq<Card>)
    requires Valued(cards)
    ensures Soft(cards) ==> CountsAnAceAsEleven(cards)
  {
    SoftMeansSingleAceAtEleven(cards);
  }

  /** The sums of a hand of two, three or four given cards. */
  lemma SumsOf2(a: Card, b: Card)
    requires a.rank in VALUES && b.rank in VALUES
    ensures Valued([a, b])
    ensures RawSum([a, b]) == VALUES[a.rank] + VALUES[b.rank]
    ensures AceCount([a, b]) == AceBit(a) + AceBit(b)
  {
    SumsAppend([], a);
    assert [] + [a] == [a];
    SumsAppend([a], b);
    assert [a] + [b] == [a, b];
  }

  lemma SumsOf3(a: Card, b: Card, c: Card)
    requires a.rank in VALUES && b.rank in VALUES && c.rank in VALUES
    ensures Valued([a, b, c])
    ensures RawSum([a, b, c]) == VALUES[a.rank] + VALUES[b.rank] + VALUES[c.rank]
    ensures AceCount([a, b, c]) == AceBit(a) + AceBit(b) + AceBit(c)
  {
    SumsOf2(a, b);
    SumsAppend([a, b], c);
    assert [a, b] + [c] == [a, b, c];
  }

  lemma SumsOf4(a: Card, b: Card, c: Card, d: Card)
    requires a.rank in VALUES && b.rank in VALUES && c.rank in VALUES && d.rank in VALUES
    ensures Valued([a, b, c, d])
    ensures RawSum([a, b, c, d]) == VALUES[a.rank] + VALUES[b.rank] + VALUES[c.rank] + VALUES[d.rank]
    ensures AceCount([a, b, c, d]) == AceBit(a) + AceBit(b) + AceBit(c) + AceBit(d)
  {
    SumsOf3(a, b, c);
    SumsAppend([a, b, c], d);
    assert [a, b, c] + [d] == [a, b, c, d];
  }

  /** The converse fails: Ace, Ace, 5 totals 17 with one Ace still at 11, yet the raw
      sum 27 is over 21, so the hand is not soft. */
  lemma AceAceFiveIsNotSoft()
    ensures var h := [Card("A", "\U{2660}"), Card("A", "\U{2665}"), Card("5", "\U{2666}")];
            Valued(h) && TotalOf(h) == 17 && CountsAnAceAsEleven(h) && !Soft(h)
  {
    var a, a2, f := Card("A", "\U{2660}"), Card("A", "\U{2665}"), Card("5", "\U{2666}");
    assert "A" in VALUES && VALUES["A"] == 11;
    assert "5" in VALUES && VALUES["5"] == 5;
    SumsOf3(a, a2, f);
    SoftMeansSingleAceAtEleven([a, a2, f]);
  }

  /** Ace, 9 totals 20; another Ace makes 21; another 9 makes 20 (tests/test_hand.py). */
  lemma TotalsWithAces()
    ensures var h := [Card("A", "\U{2660}"), Card("9", "\U{2666}")];
            Valued(h) && TotalOf(h) == 20
    ensures var h := [Card("A", "\U{2660}"), Card("9", "\U{2666}"), Card("A", "\U{2665}")];
            Valued(h) && TotalOf(h) == 21
    ensures var h := [Card("A", "\U{2660}"), Card("9", "\U{2666}"), Card("A", "\U{2665}"), Card("9", "\U{2663}")];
            Valued(h) && TotalOf(h) == 20
  {
    var a, n, a2, n2 := Card("A", "\U{2660}"), Card("9", "\U{2666}"), Card("A", "\U{2665}"), Card("9", "\U{2663}");
    assert "A" in VALUES && VALUES["A"] == 11;
    assert "9" in VALUES && VALUES["9"] == 9;
    SumsOf2(a, n);
    SumsOf3(a, n, a2);
    SumsOf4(a, n, a2, n2);
  }

  /** Ace, King is a natural; Ace, 9, Ace makes 21 from three cards and is not. */
  lemma BlackjackDetection()
    ensures var h := [Card("A", "\U{2660}"), Card("K", "\U{2666}")];
            Valued(h) && Natural(h)
    ensures var h := [Card("A", "\U{2660}"), Card("9", "\U{2666}"), Card("A", "\U{2665}")];
            Valued(h) && !Natural(h)
  {
    var a, k := Card("A", "\U{2660}"), Card("K", "\U{2666}");
    assert "A" in VALUES && VALUES["A"] == 11;
    assert "K" in VALUES && VALUES["K"] == 10;
    SumsOf2(a, k);
    assert "9" in VALUES;
    SumsOf3(a, Card("9", "\U{2666}"), Card("A", "\U{2665}"));
  }

  /** King, Queen, 2 busts. */
  lemma BustDetection()
    ensures var h := [Card("K", "\U{2660}"), Card("Q", "\U{2666}"), Card("2", "\U{2665}")];
            Valued(h) && Bust(h)
  {
    var k, q, t := Card("K", "\U{2660}"), Card("Q", "\U{2666}"), Card("2", "\U{2665}");
    assert "K" in VALUES && VALUES["K"] == 10;
    assert "Q" in VALUES && VALUES["Q"] == 10;
    assert "2" in VALUES && VALUES["2"] == 2;
    SumsOf3(k, q, t);
  }

  /** A hand of cards in deal order. */
  class Hand {
    var cards: seq<Card>

    constructor (cards: seq<Card>)
      ensures this.cards == cards
    {
      this.cards := cards;
    }

    /** Append one card at the end; the earlier cards stay as they were. */
    method Add(card: Card)
      modifies this
      ensures cards == old(cards) + [card]
    {
      cards := cards + [card];
    }

    /** Start with every Ace at 11 and demote one Ace at a time while over 21. */
    method Total() returns (t: int)
      requires Valued(cards)
      ensures t == TotalOf(cards)
    {
      var total := RawSum(cards);
      var aces := AceCount(cards);
      while total > 21 && aces > 0
        invariant 0 <= aces <= AceCount(cards)
        invariant total == RawSum(cards) - 10 * (AceCount(cards) - aces)
        invariant aces < AceCount(cards) ==> total + 10 > 21
        decreases aces
      {
        total := total - 10;
        aces := aces - 1;
      }
      DemotionsUnique(cards, AceCount(cards) - aces);
      t := total;
    }

    /** The executable form of `Natural`, on the loop-computed total. */
    method IsBlackjack() returns (b: bool)
      requires Valued(cards)
      ensures b == Natural(cards)
    {
      var total := Total();
      b := |cards| == 2 && total == 21;
    }

    /** The executable form of `Bust`, on the loop-computed total. */
    method IsBust() returns (b: bool)
      requires Valued(cards)
      ensures b == Bust(cards)
    {
      var total := Total();
      b := total > 21;
    }

    /** The executable form of `Soft`. */
    method IsSoft() returns (b: bool)
      requires Valued(cards)
      ensures b == Soft(cards)
    {
      var raw := RawSum(cards);
      b := HasAce(cards) && raw <= 21;
    }
  }
}
