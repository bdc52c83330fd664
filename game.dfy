/** One round of single-player blackjack: the initial deal, the dealer's policy and the
    settlement (blackjack/game.py). */
module Game {
  import opened Cards
  import opened Hands

  /** How a round ends. */
  datatype Outcome = PlayerBlackjack | PlayerWin | DealerWin | Push | PlayerBust | DealerBust {
    /** The outcome's tag as the engine reports it. */
    function Tag(): string {
      match this
      case PlayerBlackjack => "player_blackjack"
      case PlayerWin => "player_win"
      case DealerWin => "dealer_win"
      case Push => "push"
      case PlayerBust => "player_bust"
      case DealerBust => "dealer_bust"
    }
  }

  /** Each outcome has its own tag. */
  lemma TagsDistinct(a: Outcome, b: Outcome)
    ensures a.Tag() == b.Tag() <==> a == b
  {
  }

  /** Table rules: whether the dealer hits a soft 17, and what a natural pays per unit. */
  datatype Rules = Rules(dealerHitsSoft17: bool, blackjackPays: real)

  /** Dealer stands on soft 17; a natural pays 3:2. */
  const DEFAULT_RULES: Rules := Rules(false, 1.5)

  /** An outcome and the player's payout per unit bet. */
  datatype Settlement = Settlement(outcome: Outcome, payout: real)

  datatype Option<T> = None | Some(value: T)

  /** The per-unit payout that goes with each outcome. */
  function Payout(o: Outcome, rules: Rules): real {
    match o
    case PlayerBlackjack => rules.blackjackPays
    case PlayerWin => 1.0
    case DealerBust => 1.0
    case Push => 0.0
    case DealerWin => -1.0
    case PlayerBust => -1.0
  }

  /** The dealer stops drawing: 17 or more, except a soft 17 when the rules say to hit it. */
  predicate DealerStands(cards: seq<Card>, rules: Rules)
    requires Valued(cards)
  {
    var total := TotalOf(cards);
    var soft17 := total == 17 && Soft(cards);
    !(total < 17 || (soft17 && rules.dealerHitsSoft17))
  }

  /** The dealer did not stand on any prefix of the hand from length `from` up to,
      but not including, the whole hand: every one of those cards was a forced hit. */
  ghost predicate HitThrough(cards: seq<Card>, from: nat, rules: Rules)
    requires Valued(cards)
  {
    forall j :: from <= j < |cards| ==> !DealerStands(cards[..j], rules)
  }

  /** Drawing on a hand where the dealer must hit keeps every earlier draw forced. */
  lemma HitThroughExtend(cards: seq<Card>, c: Card, from: nat, rules: Rules)
    requires Valued(cards) && c.rank in VALUES
    requires HitThrough(cards, from, rules) && !DealerStands(cards, rules)
    requires from <= |cards|
    ensures Valued(cards + [c]) && HitThrough(cards + [c], from, rules)
  {
    SumsAppend(cards, c);
    var longer := cards + [c];
    forall j | from <= j < |longer|
      ensures !DealerStands(longer[..j], rules)
    {
      if j == |cards| {
        assert longer[..j] == cards;
      } else {
        assert longer[..j] == cards[..j];
      }
    }
  }

  lemma AppendAssoc(s: seq<Card>, t: seq<Card>, c: Card)
    ensures (s + t) + [c] == s + (t + [c])
  {
  }

  /** A dealer who already stands at the start of a turn drew nothing in it. */
  lemma StandingDrawsNothing(start: seq<Card>, draws: seq<Card>, rules: Rules)
    requires Valued(start + draws) && HitThrough(start + draws, |start|, rules)
    ensures Valued(start)
    ensures DealerStands(start, rules) ==> draws == []
  {
    assert (start + draws)[..|start|] == start;
  }

  /** Standing means at least 17; under S17 that is all it means, under H17 a 17 must
      also not be soft. */
  lemma DealerStandsMeans(cards: seq<Card>, rules: Rules)
    requires Valued(cards)
    ensures !rules.dealerHitsSoft17 ==> (DealerStands(cards, rules) <==> TotalOf(cards) >= 17)
    ensures rules.dealerHitsSoft17 ==>
      (DealerStands(cards, rules) <==> TotalOf(cards) > 17 || (TotalOf(cards) == 17 && !Soft(cards)))
  {
  }

  /** The settlement chain, first match wins: both naturals push; a player natural pays the
      blackjack rate; a dealer natural wins; a bust player loses; a bust dealer pays; then
      the totals are compared. */
  function SettleRound(player: seq<Card>, dealer: seq<Card>, rules: Rules): (s: Settlement)
    requires Valued(player) && Valued(dealer)
    ensures s.payout == Payout(s.outcome, rules)
    ensures s.payout in {-1.0, 0.0, 1.0, rules.blackjackPays}
    ensures s.outcome == PlayerBlackjack <==> Natural(player) && !Natural(dealer)
    ensures s.outcome == PlayerBust <==> Bust(player) && !Natural(dealer)
    ensures s.outcome == DealerBust <==> !Natural(player) && !Bust(player) && Bust(dealer)
    ensures s.outcome == PlayerWin <==>
      !Natural(player) && !Natural(dealer) && !Bust(player) && !Bust(dealer)
      && TotalOf(player) > TotalOf(dealer)
    ensures s.outcome == DealerWin <==>
      (Natural(dealer) && !Natural(player)) ||
      (!Natural(player) && !Natural(dealer) && !Bust(player) && !Bust(dealer)
       && TotalOf(player) < TotalOf(dealer))
    ensures s.outcome == Push <==>
      (Natural(player) && Natural(dealer)) ||
      (!Natural(player) && !Natural(dealer) && !Bust(player) && !Bust(dealer)
       && TotalOf(player) == TotalOf(dealer))
  {
    if Natural(player) && Natural(dealer) then Settlement(Push, 0.0)
    else if Natural(player) then Settlement(PlayerBlackjack, rules.blackjackPays)
    else if Natural(dealer) then Settlement(DealerWin, -1.0)
    else if Bust(player) then Settlement(PlayerBust, -1.0)
    else if Bust(dealer) then Settlement(DealerBust, 1.0)
    else if TotalOf(player) > TotalOf(dealer) then Settlement(PlayerWin, 1.0)
    else if TotalOf(player) < TotalOf(dealer) then Settlement(DealerWin, -1.0)
    else Settlement(Push, 0.0)
  }

  /** A player who busts loses one unit, whatever the dealer holds. */
  lemma PlayerBustAlwaysLoses(player: seq<Card>, dealer: seq<Card>, rules: Rules)
    requires Valued(player) && Valued(dealer)
    requires Bust(player)
    ensures SettleRound(player, dealer, rules).payout == -1.0
  {
  }

  function Sign(x: int): real {
    if x > 0 then 1.0 else if x < 0 then -1.0 else 0.0
  }

  /** Without naturals or busts the payout is the sign of the difference of the totals. */
  lemma ComparedTotalsPayout(player: seq<Card>, dealer: seq<Card>, rules: Rules)
    requires Valued(player) && Valued(dealer)
    requires !Natural(player) && !Natural(dealer) && !Bust(player) && !Bust(dealer)
    ensures SettleRound(player, dealer, rules).payout == Sign(TotalOf(player) - TotalOf(dealer))
  {
  }

  /** A natural against a dealer 20 pays the blackjack rate: the rigged deal of
      tests/test_game.py gives the player Ace, King and the dealer 10, 10. */
  lemma NaturalBeatsTwenty()
    ensures var player := [Card("A", "\U{2663}"), Card("K", "\U{2666}")];
            var dealer := [Card("10", "\U{2665}"), Card("10", "\U{2660}")];
            Valued(player) && Valued(dealer) &&
            SettleRound(player, dealer, DEFAULT_RULES) == Settlement(PlayerBlackjack, 1.5)
  {
    assert "A" in VALUES && VALUES["A"] == 11;
    assert "K" in VALUES && VALUES["K"] == 10;
    assert "10" in VALUES && VALUES["10"] == 10;
    SumsOf2(Card("A", "\U{2663}"), Card("K", "\U{2666}"));
    SumsOf2(Card("10", "\U{2665}"), Card("10", "\U{2660}"));
  }

  /** Two naturals push. */
  lemma NaturalsPush()
    ensures var player := [Card("A", "\U{2663}"), Card("K", "\U{2666}")];
            var dealer := [Card("A", "\U{2665}"), Card("Q", "\U{2660}")];
            Valued(player) && Valued(dealer) &&
            SettleRound(player, dealer, DEFAULT_RULES) == Settlement(Push, 0.0)
  {
    assert "A" in VALUES && VALUES["A"] == 11;
    assert "K" in VALUES && VALUES["K"] == 10;
    assert "Q" in VALUES && VALUES["Q"] == 10;
    SumsOf2(Card("A", "\U{2663}"), Card("K", "\U{2666}"));
    SumsOf2(Card("A", "\U{2665}"), Card("Q", "\U{2660}"));
  }

  /** The dealer of tests/test_game.py holds 6, 10 and must hit; after the 2 the hand
      is 18 and the dealer stands. */
  lemma DealerHitsSixteen()
    ensures var hand := [Card("6", "\U{2665}"), Card("10", "\U{2660}")];
            Valued(hand) && TotalOf(hand) == 16 && !DealerStands(hand, DEFAULT_RULES)
    ensures var hand := [Card("6", "\U{2665}"), Card("10", "\U{2660}"), Card("2", "\U{2663}")];
            Valued(hand) && TotalOf(hand) == 18 && DealerStands(hand, DEFAULT_RULES)
  {
    assert "6" in VALUES && VALUES["6"] == 6;
    assert "10" in VALUES && VALUES["10"] == 10;
    assert "2" in VALUES && VALUES["2"] == 2;
    SumsOf2(Card("6", "\U{2665}"), Card("10", "\U{2660}"));
    SumsOf3(Card("6", "\U{2665}"), Card("10", "\U{2660}"), Card("2", "\U{2663}"));
  }

  /** Ace, 6 is a soft 17: the dealer stands on it under S17 and hits it under H17. */
  lemma SoftSeventeen()
    ensures var hand := [Card("A", "\U{2665}"), Card("6", "\U{2660}")];
            Valued(hand) && TotalOf(hand) == 17 && Soft(hand) &&
            DealerStands(hand, DEFAULT_RULES) && !DealerStands(hand, Rules(true, 1.5))
  {
    assert "A" in VALUES && VALUES["A"] == 11;
    assert "6" in VALUES && VALUES["6"] == 6;
    SumsOf2(Card("A", "\U{2665}"), Card("6", "\U{2660}"));
    assert IsAce([Card("A", "\U{2665}"), Card("6", "\U{2660}")][0]);
  }

  /** Because softness looks at the raw sum, Ace, Ace, 5 counts as a hard 17 and the
      dealer stands on it even under H17. */
  lemma AceAceFiveStandsUnderH17()
    ensures var hand := [Card("A", "\U{2660}"), Card("A", "\U{2665}"), Card("5", "\U{2666}")];
            Valued(hand) && DealerStands(hand, Rules(true, 1.5))
  {
    AceAceFiveIsNotSoft();
  }

  /** The game: one deck, fixed rules, and the two hands of the current round. */
  class BlackjackGame {
    const deck: Deck
    const rules: Rules
    var player: Hand
    var dealer: Hand

    /** The deck is consistent, the hands are two distinct objects and every card in
        them has a value. */
    ghost predicate Valid()
      reads this, deck, player, dealer
    {
      deck.Valid() && player != dealer && Valued(player.cards) && Valued(dealer.cards)
    }

    /** A missing deck becomes a fresh one-deck shoe, missing rules the defaults;
        both hands start empty. */
    constructor (deck: Deck?, rules: Option<Rules>)
      requires deck != null ==> deck.Valid()
      ensures Valid()
      ensures deck != null ==> this.deck == deck
      ensures deck == null ==> fresh(this.deck) && this.deck.nDecks == 1 && this.deck.drawn == []
      ensures deck == null ==> multiset(this.deck.cards) == multiset(Shoe(1))
      ensures this.rules == if rules.Some? then rules.value else DEFAULT_RULES
      ensures fresh(player) && fresh(dealer) && player.cards == [] && dealer.cards == []
    {
      if deck == null {
        this.deck := new Deck(1);
      } else {
        this.deck := deck;
      }
      this.rules := if rules.Some? then rules.value else DEFAULT_RULES;
      player := new Hand([]);
      dealer := new Hand([]);
    }

    /** `h.add(deck.draw())`: one card comes off the deck and goes to the end of hand h.
        The ghost arguments carry the run of draws so far: from shoe `shoe`, the cards
        `sofar`, logged after `history`. */
    method DrawInto(h: Hand, ghost shoe: seq<Card>, ghost history: seq<Card>, ghost sofar: seq<Card>)
      returns (c: Card)
      requires deck.Valid() && Valued(h.cards)
      requires deck.drawn == history + sofar && DrawsFrom(shoe, deck.cards, sofar, deck.nDecks)
      modifies deck, h
      ensures deck.Valid() && Valued(h.cards)
      ensures IsStandard(c) && c.rank in VALUES
      ensures h.cards == old(h.cards) + [c]
      ensures deck.drawn == history + (sofar + [c])
      ensures DrawsFrom(shoe, deck.cards, sofar + [c], deck.nDecks)
    {
      ghost var mid := deck.cards;
      c := deck.Draw();
      DrawsExtend(shoe, mid, deck.cards, sofar, c, deck.nDecks);
      AppendAssoc(history, sofar, c);
      SumsAppend(h.cards, c);
      h.Add(c);
    }

    /** One pass of the initial deal: a card to hand p, then a card to hand q. */
    method DealPair(p: Hand, q: Hand, ghost shoe: seq<Card>, ghost history: seq<Card>, ghost sofar: seq<Card>)
      returns (c1: Card, c2: Card)
      requires p != q && deck.Valid() && Valued(p.cards) && Valued(q.cards)
      requires deck.drawn == history + sofar && DrawsFrom(shoe, deck.cards, sofar, deck.nDecks)
      modifies deck, p, q
      ensures deck.Valid() && Valued(p.cards) && Valued(q.cards)
      ensures p.cards == old(p.cards) + [c1] && q.cards == old(q.cards) + [c2]
      ensures deck.drawn == history + (sofar + [c1, c2])
      ensures DrawsFrom(shoe, deck.cards, sofar + [c1, c2], deck.nDecks)
    {
      c1 := DrawInto(p, shoe, history, sofar);
      c2 := DrawInto(q, shoe, history, sofar + [c1]);
      assert sofar + [c1] + [c2] == sofar + [c1, c2];
    }

    /** Fresh hands, then two cards each in the order player, dealer, player, dealer:
        the player holds the first and third draw, the dealer the second and fourth, and the
        four draws are what the deck gave up. With at least 13n + 3 cards in the shoe no
        rebuild happens and the four cards come off its end. */
    method DealInitial() returns (ghost dealt: seq<Card>)
      requires Valid()
      modifies this, deck
      ensures Valid()
      ensures fresh(player) && fresh(dealer)
      ensures |dealt| == 4 && deck.drawn == old(deck.drawn) + dealt
      ensures player.cards == [dealt[0], dealt[2]] && dealer.cards == [dealt[1], dealt[3]]
      ensures DrawsFrom(old(deck.cards), deck.cards, dealt, deck.nDecks)
      ensures old(|deck.cards|) >= 13 * deck.nDecks + 3 ==>
        deck.cards + [dealt[3], dealt[2], dealt[1], dealt[0]] == old(deck.cards)
    {
      ghost var start := deck.cards;
      ghost var history := deck.drawn;
      var p := new Hand([]);
      var d := new Hand([]);
      player, dealer := p, d;
      dealt := [];
      for i := 0 to 2
        invariant deck.Valid() && player == p && dealer == d
        invariant |dealt| == 2 * i && deck.drawn == history + dealt
        invariant |p.cards| == i && |d.cards| == i
        invariant forall j :: 0 <= j < i ==> p.cards[j] == dealt[2 * j] && d.cards[j] == dealt[2 * j + 1]
        invariant Valued(p.cards) && Valued(d.cards)
        invariant DrawsFrom(start, deck.cards, dealt, deck.nDecks)
      {
        var c1, c2 := DealPair(p, d, start, history, dealt);
        dealt := dealt + [c1, c2];
      }
      if |start| >= 13 * deck.nDecks + 3 {
        PlainDraws(start, deck.cards, dealt, deck.nDecks);
        ReversedFour(dealt);
      }
    }

    /** The dealer draws until standing. Only the dealer hand and the deck change; the
        dealer hand grows by exactly the cards drawn from the deck (`draws`, which are what
        the deck gave up, one draw at a time); the dealer ends
        standing and did not stand at any earlier point of this turn, so a dealer already
        standing draws nothing. */
    method DealerPlay() returns (ghost draws: seq<Card>)
      requires Valid()
      modifies deck, dealer
      ensures Valid()
      ensures unchanged(player)
      ensures dealer.cards == old(dealer.cards) + draws
      ensures deck.drawn == old(deck.drawn) + draws
      ensures DealerStands(dealer.cards, rules)
      ensures HitThrough(dealer.cards, |old(dealer.cards)|, rules)
      ensures DealerStands(old(dealer.cards), rules) ==> draws == []
      ensures DrawsFrom(old(deck.cards), deck.cards, draws, deck.nDecks)
      ensures draws == [] ==> deck.cards == old(deck.cards)
    {
      ghost var start := dealer.cards;
      ghost var history := deck.drawn;
      ghost var shoe := deck.cards;
      draws := [];
      while true
        invariant deck.Valid() && Valued(dealer.cards)
        invariant dealer.cards == start + draws && deck.drawn == history + draws
        invariant DrawsFrom(shoe, deck.cards, draws, deck.nDecks)
        invariant HitThrough(dealer.cards, |start|, rules)
        decreases 18 - HardSum(dealer.cards)
      {
        var total := dealer.Total();
        var soft17 := false;
        if total == 17 {
          soft17 := dealer.IsSoft();
        }
        if total < 17 || (soft17 && rules.dealerHitsSoft17) {
          ghost var before := dealer.cards;
          var c := DrawInto(dealer, shoe, history, draws);
          HitThroughExtend(before, c, |start|, rules);
          SumsAppend(before, c);
          AppendAssoc(start, draws, c);
          draws := draws + [c];
        } else {
          StandingDrawsNothing(start, draws, rules);
          break;
        }
      }
    }

    /** Settle the round from the current hands; nothing changes. This is the executable
        form of `SettleRound`, asking the hands as the source does. */
    method Settle() returns (s: Settlement)
      requires Valid()
      ensures s == SettleRound(player.cards, dealer.cards, rules)
    {
      var playerNatural := player.IsBlackjack();
      var dealerNatural := dealer.IsBlackjack();
      if playerNatural && dealerNatural {
        return Settlement(Push, 0.0);
      }
      if playerNatural {
        return Settlement(PlayerBlackjack, rules.blackjackPays);
      }
      if dealerNatural {
        return Settlement(DealerWin, -1.0);
      }
      var playerBust := player.IsBust();
      if playerBust {
        return Settlement(PlayerBust, -1.0);
      }
      var dealerBust := dealer.IsBust();
      if dealerBust {
        return Settlement(DealerBust, 1.0);
      }
      var playerTotal := player.Total();
      var dealerTotal := dealer.Total();
      if playerTotal > dealerTotal {
        return Settlement(PlayerWin, 1.0);
      }
      if playerTotal < dealerTotal {
        return Settlement(DealerWin, -1.0);
      }
      return Settlement(Push, 0.0);
    }
  }
}
