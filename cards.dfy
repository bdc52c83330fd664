/** Cards, the rank value table and the self-replenishing shoe (blackjack/cards.py). */
module Cards {

  /** The four suit symbols in build order: spades, hearts, diamonds, clubs. */
  const SUITS: seq<string> := ["\U{2660}", "\U{2665}", "\U{2666}", "\U{2663}"]

  /** The thirteen ranks in build order. */
  const RANKS: seq<string> := ["A", "2", "3", "4", "5", "6", "7", "8", "9", "10", "J", "Q", "K"]

  /** Base value of each rank; an Ace starts at 11 and is demoted at the hand level. */
  const VALUES: map<string, nat> :=
    map["2" := 2, "3" := 3, "4" := 4, "5" := 5, "6" := 6, "7" := 7, "8" := 8, "9" := 9,
        "10" := 10, "J" := 10, "Q" := 10, "K" := 10, "A" := 11]

  /** Cards in one standard deck. */
  const DECK_SIZE: nat := 52

  /** An immutable card; equality is structural, as for a frozen dataclass. */
  datatype Card = Card(rank: string, suit: string) {
    /** The card's text form: rank followed by suit, e.g. "K" + spade. */
    function ToString(): string {
      rank + suit
    }
  }

  /** A card of the standard 52-card deck. */
  predicate IsStandard(c: Card) {
    c.rank in RANKS && c.suit in SUITS
  }

  /** Every card of the sequence is standard. */
  predicate AllStandard(cards: seq<Card>) {
    forall i :: 0 <= i < |cards| ==> IsStandard(cards[i])
  }

  /** The decimal numeral of a pip rank. */
  function Numeral(n: nat): string
    requires 2 <= n <= 10
  {
    if n == 10 then "10" else [('0' as int + n) as char]
  }

  /** Pip ranks are worth their face value, court cards 10 and the Ace 11,
      and exactly the thirteen ranks have a value. */
  lemma ValuesTable()
    ensures VALUES.Keys == set r | r in RANKS
    ensures forall n :: 2 <= n <= 10 ==> Numeral(n) in RANKS && VALUES[Numeral(n)] == n
    ensures VALUES["J"] == 10 && VALUES["Q"] == 10 && VALUES["K"] == 10
    ensures VALUES["A"] == 11
  {
    forall n | 2 <= n <= 10
      ensures Numeral(n) in RANKS && VALUES[Numeral(n)] == n
    {
      assert Numeral(n) == RANKS[n - 1];
    }
  }

  /** Every standard card has a value. */
  lemma StandardIsValued(c: Card)
    requires IsStandard(c)
    ensures c.rank in VALUES && 2 <= VALUES[c.rank] <= 11
  {
    ValuesTable();
  }

  /** Every suit symbol is a single character. */
  lemma SuitIsOneChar(s: string)
    requires s in SUITS
    ensures |s| == 1
  {
  }

  /** The text form loses nothing: the rank and the suit can be read back from it. */
  lemma {:induction false} ToStringInjective(c: Card, d: Card)
    requires c.suit in SUITS && d.suit in SUITS
    requires c.ToString() == d.ToString()
    ensures c == d
  {
    var s := c.ToString();
    SuitIsOneChar(c.suit);
    SuitIsOneChar(d.suit);
    assert s[..|s| - 1] == c.rank && s[|s| - 1..] == c.suit;
    assert s[..|s| - 1] == d.rank && s[|s| - 1..] == d.suit;
  }

  /** One deck in build order: suit by suit, and within a suit rank by rank. */
  function OneDeck(): (d: seq<Card>)
    ensures |d| == DECK_SIZE
  {
    seq(52, i requires 0 <= i < 52 => Card(RANKS[i % 13], SUITS[i / 13]))
  }

  /** The full shoe of n decks, deck after deck. */
  function Shoe(n: nat): (s: seq<Card>)
    ensures |s| == DECK_SIZE * n
  {
    if n == 0 then [] else Shoe(n - 1) + OneDeck()
  }

  lemma RanksDistinct()
    ensures forall i, j :: 0 <= i < j < |RANKS| ==> RANKS[i] != RANKS[j]
  {
  }

  lemma SuitsDistinct()
    ensures forall i, j :: 0 <= i < j < |SUITS| ==> SUITS[i] != SUITS[j]
  {
  }

  /** No card occurs twice in one deck. */
  lemma OneDeckDistinct()
    ensures Distinct(OneDeck())
  {
    RanksDistinct();
    SuitsDistinct();
    forall i, j | 0 <= i < j < 52
      ensures OneDeck()[i] != OneDeck()[j]
    {
      if i % 13 == j % 13 {
        assert i / 13 != j / 13;
      }
    }
  }

  /** One deck holds exactly the standard cards. */
  lemma OneDeckMembers(c: Card)
    ensures c in OneDeck() <==> IsStandard(c)
  {
    if IsStandard(c) {
      var ri :| 0 <= ri < 13 && RANKS[ri] == c.rank;
      var si :| 0 <= si < 4 && SUITS[si] == c.suit;
      var i := 13 * si + ri;
      assert i % 13 == ri && i / 13 == si;
      assert OneDeck()[i] == c;
    }
  }

  /** In a sequence without repetitions every element occurs once. */
  predicate Distinct<T(==)>(s: seq<T>) {
    forall i, j :: 0 <= i < j < |s| ==> s[i] != s[j]
  }

  lemma {:induction false} DistinctCount<T>(s: seq<T>, x: T)
    requires Distinct(s)
    ensures multiset(s)[x] == if x in s then 1 else 0
  {
    if s != [] {
      assert s == [s[0]] + s[1..];
      DistinctCount(s[1..], x);
      assert s[0] !in s[1..];
    }
  }

  /** One deck holds every standard card once and nothing else. */
  lemma OneDeckCount(c: Card)
    ensures multiset(OneDeck())[c] == if IsStandard(c) then 1 else 0
  {
    OneDeckDistinct();
    DistinctCount(OneDeck(), c);
    OneDeckMembers(c);
  }

  /** A shoe of n decks holds every standard card exactly n times and nothing else. */
  lemma {:induction false} ShoeCount(n: nat, c: Card)
    ensures multiset(Shoe(n))[c] == if IsStandard(c) then n else 0
  {
    if n > 0 {
      var prev, deck := Shoe(n - 1), OneDeck();
      ShoeCount(n - 1, c);
      OneDeckCount(c);
      assert Shoe(n) == prev + deck;
      assert multiset(prev + deck) == multiset(prev) + multiset(deck);
    }
  }

  /** Whatever is left of a shoe has at most its size and holds only standard cards. */
  lemma SubShoe(cards: seq<Card>, n: nat)
    requires multiset(cards) <= multiset(Shoe(n))
    ensures |cards| <= DECK_SIZE * n
    ensures AllStandard(cards)
  {
    var whole := multiset(Shoe(n));
    assert whole == multiset(cards) + (whole - multiset(cards));
    forall i | 0 <= i < |cards|
      ensures IsStandard(cards[i])
    {
      assert cards[i] in multiset(cards);
      ShoeCount(n, cards[i]);
    }
  }

  /** The reshuffle trigger: fewer cards left than a quarter of the full shoe,
      compared as the source does, in fractional arithmetic. */
  predicate BelowPenetration(count: nat, nDecks: nat)
    ensures BelowPenetration(count, nDecks) <==> count < 13 * nDecks
  {
    (count as real) < ((nDecks * DECK_SIZE) as real) * 0.25
  }

  lemma PopSplit(s: seq<Card>)
    requires |s| > 0
    ensures s == s[..|s| - 1] + [s[|s| - 1]]
    ensures multiset(s) == multiset(s[..|s| - 1]) + multiset{s[|s| - 1]}
  {
    assert s == s[..|s| - 1] + [s[|s| - 1]];
  }

  /** One draw of card c from a shoe of n decks, taking its cards from `before` to `after`:
      below 13n cards (the empty shoe included) the shoe is rebuilt first, so c and what is
      left make up the full shoe; otherwise c is the last card and the rest stays in order. */
  predicate DrawStep(before: seq<Card>, after: seq<Card>, c: Card, n: nat) {
    if |before| < 13 * n then
      |after| == DECK_SIZE * n - 1 && multiset(after + [c]) == multiset(Shoe(n))
    else
      after + [c] == before
  }

  /** Drawing the cards cs one after the other takes the shoe from `before` to `after`. */
  ghost predicate DrawsFrom(before: seq<Card>, after: seq<Card>, cs: seq<Card>, n: nat)
    decreases |cs|
  {
    if cs == [] then after == before
    else exists mid {:trigger DrawStep(mid, after, cs[|cs| - 1], n)} :: DrawsFrom(before, mid, cs[..|cs| - 1], n) && DrawStep(mid, after, cs[|cs| - 1], n)
  }

  /** One more draw extends a run of draws. */
  lemma DrawsExtend(before: seq<Card>, mid: seq<Card>, after: seq<Card>, cs: seq<Card>, c: Card, n: nat)
    requires DrawsFrom(before, mid, cs, n) && DrawStep(mid, after, c, n)
    ensures DrawsFrom(before, after, cs + [c], n)
  {
    var longer := cs + [c];
    assert longer[..|longer| - 1] == cs && longer[|longer| - 1] == c;
    assert DrawsFrom(before, mid, longer[..|longer| - 1], n) && DrawStep(mid, after, longer[|longer| - 1], n);
  }

  /** The sequence backwards. */
  function Reversed(s: seq<Card>): (r: seq<Card>)
    ensures |r| == |s|
  {
    if s == [] then [] else [s[|s| - 1]] + Reversed(s[..|s| - 1])
  }

  lemma ReversedFour(s: seq<Card>)
    requires |s| == 4
    ensures Reversed(s) == [s[3], s[2], s[1], s[0]]
  {
    var s3, s2, s1 := s[..3], s[..2], s[..1];
    assert s3[..2] == s2 && s2[..1] == s1 && s1[..0] == [];
    assert Reversed(s1) == [s[0]];
    assert Reversed(s2) == [s[1]] + Reversed(s1);
    assert Reversed(s3) == [s[2]] + Reversed(s2);
    assert Reversed(s) == [s[3]] + Reversed(s3);
  }

  /** When the shoe never falls below 13n cards before a draw, no rebuild happens: the cards
      drawn are the last ones of the shoe, last card first. */
  lemma {:induction false} PlainDraws(before: seq<Card>, after: seq<Card>, cs: seq<Card>, n: nat)
    requires DrawsFrom(before, after, cs, n)
    requires |before| + 1 >= 13 * n + |cs|
    ensures after + Reversed(cs) == before
    decreases |cs|
  {
    if cs != [] {
      var init, last := cs[..|cs| - 1], cs[|cs| - 1];
      var mid :| DrawsFrom(before, mid, init, n) && DrawStep(mid, after, last, n);
      PlainDraws(before, mid, init, n);
      assert |mid| + |init| == |before|;
      assert after + [last] == mid;
      calc {
        after + Reversed(cs);
        after + ([last] + Reversed(init));
        (after + [last]) + Reversed(init);
        before;
      }
    }
  }

  /** A shoe that draws from its end and rebuilds itself when running low. */
  class Deck {
    const nDecks: nat
    var cards: seq<Card>
    /** Every card handed out so far, in order. */
    ghost var drawn: seq<Card>

    /** At least one deck; never more cards than the full shoe, and only standard ones. */
    ghost predicate Valid()
      reads this
    {
      nDecks >= 1 && |cards| <= DECK_SIZE * nDecks && AllStandard(cards)
    }

    /** The deck count is clamped to at least one; the shoe starts full and shuffled. */
    constructor (n: int)
      ensures Valid()
      ensures nDecks == if n < 1 then 1 else n
      ensures multiset(cards) == multiset(Shoe(nDecks))
      ensures drawn == []
    {
      nDecks := if n < 1 then 1 else n;
      cards := [];
      drawn := [];
      new;
      BuildAndShuffle();
    }

    /** Rebuild the full shoe and put it in an arbitrary order. */
    method BuildAndShuffle()
      modifies this`cards
      ensures multiset(cards) == multiset(Shoe(nDecks))
      ensures |cards| == DECK_SIZE * nDecks && AllStandard(cards)
    {
      var shoe := Shoe(nDecks);
      var shuffled :| multiset(shuffled) == multiset(shoe);
      cards := shuffled;
      assert |cards| == |multiset(cards)| == |multiset(shoe)| == |shoe|;
      SubShoe(cards, nDecks);
    }

    /** Take the last card, rebuilding first when the deck is empty or below a quarter
        of the full shoe; so a draw always succeeds. */
    method Draw() returns (c: Card)
      requires Valid()
      modifies this`cards, this`drawn
      ensures Valid()
      ensures IsStandard(c) && c.rank in VALUES
      ensures drawn == old(drawn) + [c]
      ensures DrawStep(old(cards), cards, c, nDecks)
    {
      ghost var before := cards;
      if |cards| == 0 {
        BuildAndShuffle();
      }
      if BelowPenetration(|cards|, nDecks) {
        BuildAndShuffle();
      }
      assert |before| < 13 * nDecks ==> multiset(cards) == multiset(Shoe(nDecks));
      assert |before| >= 13 * nDecks ==> cards == before;
      var pre := cards;
      var last := |pre| - 1;
      c := pre[last];
      assert IsStandard(pre[last]);
      StandardIsValued(c);
      var rest := pre[..last];
      PopSplit(pre);
      cards := rest;
      drawn := drawn + [c];
    }
  }
}
