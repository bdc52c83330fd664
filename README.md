# Blackjack core in Dafny

This project models the core of a small console blackjack game and proves properties about it. The game has one player against a dealer, with a shoe that reshuffles itself.

- **Cards** (`cards.dfy`, module `Cards`):
  - the suit and rank tables and the value of each rank;
  - cards and their text form;
  - the `Deck` class. It holds a shoe of `n` standard decks, deals from the end and rebuilds and reshuffles itself when it is empty or below a quarter of its full size.
- **Hands** (`hand.dfy`, module `Hands`):
  - the `Hand` class, with its best total (each Ace counts 11 and is demoted to 1 while the hand is over 21);
  - the natural (blackjack), bust and soft tests.
  - The totals are defined on values (`RawSum`, `Demotions`, `TotalOf`). They are checked against an independent reference: every way of counting each Ace as 1 or 11 (`ValueWith`).
- **Game** (`game.dfy`, module `Game`):
  - the outcomes, the table rules (S17/H17 and the blackjack rate) and the settlement chain;
  - the `BlackjackGame` class: the initial deal (player, dealer, player, dealer), the dealer's drawing loop and settlement.
- **Console rendering** (`cli.dfy`, module `Cli`):
  - the ASCII card boxes, the face-down hole card, and the joining of several boxes side by side into one string.
  - The rendering is proved to lose no information: a face-up box can be read back, and two drawn hands of deck cards are equal exactly when their cards are. With the hole card hidden, only the hole card is hidden.

The shuffle is an arbitrary permutation of the full shoe. The deck keeps a ghost record of every card it has dealt (`drawn`). This lets the game's contracts say which dealt card went into which hand. `DrawsFrom` ties those draws to the deck's own cards, one draw at a time.

## Model

| member | source | states |
|---|---|---|
| Cards.ValuesTable | blackjack/cards.py:9 | exactly the thirteen ranks have a value; pip ranks 2..10 are worth their number, J/Q/K 10 and the Ace 11 |
| Cards.StandardIsValued | blackjack/cards.py:7-9 | every card of the standard deck has a value between 2 and 11 |
| Cards.Card.ToString | blackjack/cards.py:17-18 | the text form of a card: its rank followed by its suit symbol |
| Cards.ToStringInjective | blackjack/cards.py:17-18 | the text form rank+suit determines the card, since every suit is one symbol |
| Cards.OneDeck | blackjack/cards.py:31 | one deck in build order, suit by suit and rank by rank within a suit: 52 cards |
| Cards.OneDeckDistinct | blackjack/cards.py:31 | one built deck repeats no card |
| Cards.OneDeckMembers | blackjack/cards.py:31 | one built deck holds a card exactly when it is a standard card |
| Cards.OneDeckCount | blackjack/cards.py:31 | one built deck holds each standard card once and nothing else |
| Cards.Shoe | blackjack/cards.py:31 | the built shoe of n decks has 52·n cards |
| Cards.ShoeCount | blackjack/cards.py:31 | the built shoe of n decks holds every standard card exactly n times and nothing else |
| Cards.SubShoe | blackjack/cards.py:30-40 | whatever is left of a shoe is no larger than the full shoe and holds only standard cards |
| Cards.BelowPenetration | blackjack/cards.py:38 | the fractional test "fewer than a quarter of 52·n" is the same as fewer than 13·n cards |
| Cards.DrawStep | blackjack/cards.py:34-40 | what one draw does to the shoe. Below 13·n cards (the empty shoe included) the shoe is rebuilt: the card and what is left make up the full shoe. Otherwise the card is the old last card and the rest is kept in order |
| Cards.DrawsFrom | blackjack/cards.py:34-40 | a run of draws: the cards drawn take the shoe from one state to another, one `DrawStep` per card |
| Cards.DrawsExtend | blackjack/cards.py:34-40 | one more draw extends a run of draws |
| Cards.PlainDraws | blackjack/cards.py:34-40 | when the shoe never drops below 13·n before a draw, no rebuild happens and the drawn cards are the shoe's last ones, last card first |
| Cards.Deck.constructor | blackjack/cards.py:24-28 | the deck count is clamped to at least 1; the shoe starts full (every standard card n times); nothing dealt yet |
| Cards.Deck.BuildAndShuffle | blackjack/cards.py:30-32 | afterwards the cards are a permutation of the full n-deck shoe |
| Cards.Deck.Draw | blackjack/cards.py:34-40 | a draw always yields a standard, valued card and records it, and changes the shoe by one `DrawStep`: below 13·n cards (the empty deck included) the deck is rebuilt first, so the card and what is left make up the full shoe; otherwise the card is the old last card and the rest is unchanged |
| Hands.RawSum | blackjack/hand.py:19 | the sum of the rank values with every Ace at 11 (the same sum is taken again at hand.py:34) |
| Hands.AceCount | blackjack/hand.py:20 | the number of Aces in the hand, never more than its cards |
| Hands.StandardCardsAreValued | blackjack/hand.py:19 | a hand of deck cards never meets the missing-rank lookup |
| Hands.RankValue | blackjack/hand.py:19-20 | a valued rank is worth 2..11, and 11 exactly for an Ace |
| Hands.SumsAppend | blackjack/hand.py:13-20 | adding a card adds its value to the raw sum and one to the Ace count when it is an Ace |
| Hands.RawIsHardPlusAces | blackjack/hand.py:19-20 | the raw sum is the all-Aces-as-1 sum plus 10 per Ace |
| Hands.Demotions | blackjack/hand.py:21-23 | the loop demotes no more Aces than the hand has; every demotion was taken while the hand was over 21; when an Ace is left at 11 the total is at most 21 |
| Hands.DemotionsUnique | blackjack/hand.py:21-23 | those three conditions fix the number of demotions uniquely |
| Hands.TotalOf | blackjack/hand.py:16-24 | the total is the raw sum when that is at most 21; it lies between the hard and the raw sum; it is over 21 only when every Ace is already at 1 |
| Hands.TotalIsAchievable | blackjack/hand.py:16-24 | the total is an actual valuation, some choice of 1 or 11 for each Ace |
| Hands.TotalIsBestValuation | blackjack/hand.py:18-24 | no valuation of at most 21 beats the total; when the total busts, every valuation busts (it is the least) |
| Hands.HasAce | blackjack/hand.py:35 | whether some card of the hand is an Ace |
| Hands.HasAceCount | blackjack/hand.py:35 | a hand has an Ace exactly when its Ace count is positive |
| Hands.Natural | blackjack/hand.py:26-27 | a natural: exactly two cards with a best total of 21 |
| Hands.Bust | blackjack/hand.py:29-30 | a bust: a best total over 21 |
| Hands.Soft | blackjack/hand.py:32-35 | soft as the code decides it: an Ace is present and the raw sum is at most 21 |
| Hands.NaturalIsAceAndTen | blackjack/hand.py:26-27 | a blackjack is exactly two cards, an Ace and a ten-valued card, in either order |
| Hands.BustIffHardBust | blackjack/hand.py:29-30 | a hand is bust exactly when it is over 21 with every Ace counted as 1 |
| Hands.NaturalIsNotBust | blackjack/hand.py:26-30 | a blackjack is never bust |
| Hands.SoftMeansSingleAceAtEleven | blackjack/hand.py:32-35 | soft as written means exactly one Ace and a raw sum of at most 21; then no Ace is demoted and the total is the raw sum |
| Hands.SoftCountsAnAceAsEleven | blackjack/hand.py:32-35 | a soft hand does count an Ace as 11 |
| Hands.AceAceFiveIsNotSoft | blackjack/hand.py:32-35 | the converse fails: A,A,5 totals 17 with an Ace at 11 yet is not soft |
| Hands.TotalsWithAces | tests/test_hand.py:7-13 | A,9 totals 20; A,9,A totals 21; A,9,A,9 totals 20 |
| Hands.BlackjackDetection | tests/test_hand.py:16-18 | A,K is a blackjack; A,9,A is not |
| Hands.BustDetection | tests/test_hand.py:21-23 | K,Q,2 is bust |
| Hands.Hand.constructor | blackjack/hand.py:9-11 | the hand holds the given cards |
| Hands.Hand.Add | blackjack/hand.py:13-14 | the card is appended at the end and nothing else changes |
| Hands.Hand.Total | blackjack/hand.py:16-24 | the demotion loop returns the best total `TotalOf` |
| Hands.Hand.IsBlackjack | blackjack/hand.py:26-27 | the result is the natural test (two cards totalling 21) |
| Hands.Hand.IsBust | blackjack/hand.py:29-30 | the result is the bust test (total over 21) |
| Hands.Hand.IsSoft | blackjack/hand.py:32-35 | the result is the soft test as written (an Ace and a raw sum of at most 21) |
| Game.Outcome.Tag | blackjack/game.py:9-16 | the source's string literal for each of the six outcomes |
| Game.Payout | blackjack/game.py:49-70 | the payout for one unit bet that goes with each outcome: the blackjack rate, +1 for a win or a dealer bust, 0 for a push, −1 for a loss or a player bust |
| Game.DealerStands | blackjack/game.py:42-44 | the negation of the dealer loop's hit test: not below 17, and not a soft 17 under H17 |
| Game.TagsDistinct | blackjack/game.py:9-16 | the six outcome tags are pairwise distinct |
| Game.HitThroughExtend | blackjack/game.py:39-47 | a card drawn while the dealer must hit keeps every earlier draw a forced hit |
| Game.StandingDrawsNothing | blackjack/game.py:39-47 | when every draw was forced, a starting hand on which the dealer stands received no draws |
| Game.DealerStandsMeans | blackjack/game.py:42-44 | under S17 the dealer stands exactly at 17 or more; under H17 exactly above 17, or at a 17 that is not soft |
| Game.SettleRound | blackjack/game.py:49-70 | each outcome holds exactly under its own condition (both naturals push; a lone player natural pays the blackjack rate; a dealer natural wins; player bust beats dealer bust; otherwise the totals decide), and the payout is the one that goes with that outcome |
| Game.PlayerBustAlwaysLoses | blackjack/game.py:60-61 | a bust player loses one unit whatever the dealer holds, even a dealer bust |
| Game.ComparedTotalsPayout | blackjack/game.py:66-70 | without naturals or busts the payout is the sign of the difference of the totals |
| Game.NaturalBeatsTwenty | tests/test_game.py:14-25 | A,K against 10,10 settles as a player blackjack paying 1.5 |
| Game.NaturalsPush | blackjack/game.py:52-53 | A,K against A,Q settles as a push paying 0 |
| Game.DealerHitsSixteen | tests/test_game.py:28-40 | the dealer hits 6,10 (16) and stands on 6,10,2 (18) |
| Game.SoftSeventeen | blackjack/game.py:42-44 | A,6 is a soft 17; the dealer stands on it under S17 and hits it under H17 |
| Game.AceAceFiveStandsUnderH17 | blackjack/game.py:42-44 | because softness is judged on the raw sum, the dealer stands on A,A,5 even under H17 |
| Game.BlackjackGame.constructor | blackjack/game.py:26-30 | a missing deck becomes a fresh, full one-deck shoe with nothing dealt, and missing rules the defaults (S17, 3:2); a given deck is used as it is; both hands start empty |
| Game.BlackjackGame.DrawInto | blackjack/game.py:36-37 | one `add(deck.draw())`: the drawn card is a valued deck card; it is appended to the hand, logged and taken from the deck by one more draw of the run |
| Game.BlackjackGame.DealPair | blackjack/game.py:35-37 | one pass of the initial deal: one card to each of the two hands, in that order, both taken from the deck |
| Game.BlackjackGame.DealInitial | blackjack/game.py:32-37 | fresh hands; exactly four cards dealt in the order player, dealer, player, dealer, and those four are what the deck gave up (`DrawsFrom`); with at least 13·n + 3 cards in the shoe no rebuild happens and the four are the shoe's last cards |
| Game.BlackjackGame.DealerPlay | blackjack/game.py:39-47 | the dealer's hand grows by exactly the cards drawn from the deck, and the deck changes by exactly those draws (`DrawsFrom`; unchanged when nothing is drawn); the dealer ends standing; every draw was forced; a standing hand draws nothing; the player's hand is untouched |
| Game.BlackjackGame.Settle | blackjack/game.py:49-70 | settles the current hands by the settlement chain |
| Cli.RenderSuit | blackjack/cli.py:34 | the letter a suit is drawn with: the table entry for the four suit symbols, the suit text itself otherwise |
| Cli.SuitLetters | blackjack/cli.py:13-18 | the four suit symbols are drawn as S, H, D, C; any other suit is drawn as itself |
| Cli.FormatRankLeft | blackjack/cli.py:24-25 | the top-left corner: "10", or the rank followed by a space |
| Cli.FormatRankRight | blackjack/cli.py:28-29 | the bottom-right corner: "10", or a space followed by the rank |
| Cli.CornerWidth | blackjack/cli.py:24-29 | for a one-character rank or "10" both corners are two characters and start or end with the rank |
| Cli.RankShape | blackjack/cards.py:8 | every rank is one character other than '0', or "10" |
| Cli.RenderCard | blackjack/cli.py:32-41 | a box has five lines framed by the edge, each nine wide for a one-character or "10" rank and a one-character suit |
| Cli.CornerShowsRank | blackjack/cli.py:24-25 | the rank can be read back from the left corner |
| Cli.LetterShowsSuit | blackjack/cli.py:13-18 | the suit can be read back from its letter; the letter is one character |
| Cli.ReadRenderedCard | blackjack/cli.py:32-41 | a face-up box of a deck card shows its rank and its suit: reading it back gives the card |
| Cli.RenderCardInjective | blackjack/cli.py:32-41 | two deck cards have the same box exactly when they are the same card |
| Cli.HiddenCardShape | blackjack/cli.py:44-50 | the hidden box is framed like a face-up one but differs from every face-up box |
| Cli.Join | blackjack/cli.py:57-58 | the parts with the separator between each two of them, as `str.join` does |
| Cli.Row | blackjack/cli.py:57 | line i of every box, joined by two spaces |
| Cli.Rows | blackjack/cli.py:57 | the five rows of the stitched hand, top to bottom |
| Cli.Stitch | blackjack/cli.py:53-58 | "(sin cartas)" for no boxes, otherwise the five rows joined by newlines |
| Cli.JoinFixedLength | blackjack/cli.py:57-58 | joining k parts of width w gives length k·(w+|sep|) − |sep| |
| Cli.JoinFixedSlice | blackjack/cli.py:57-58 | part j sits at offset j·(w+|sep|) of the join |
| Cli.RowLayout | blackjack/cli.py:57 | row i of k boxes is 11k − 2 wide and shows line i of box j at column 11j |
| Cli.StitchLength | blackjack/cli.py:53-58 | k ≥ 1 framed boxes stitch to 55k − 6 characters |
| Cli.StitchAt | blackjack/cli.py:57-58 | line i of box j appears at row i, column 11j of the stitched string |
| Cli.StitchInjective | blackjack/cli.py:53-58 | two lists of framed boxes stitch to the same string only when they are the same list |
| Cli.HandFaces | blackjack/cli.py:61-68 | one five-line box per card, in order |
| Cli.StandardCardFramed | blackjack/cli.py:32-41 | every line of a deck card's box is nine wide |
| Cli.StandardFacesFramed | blackjack/cli.py:61-68 | every box of a hand of deck cards is framed, hidden or not |
| Cli.RenderHand | blackjack/cli.py:61-68 | the loop draws the boxes of `HandFaces` (the second face down when asked) and stitches them |
| Cli.EmptyHandPlaceholder | blackjack/cli.py:55-56 | a hand shows "(sin cartas)" exactly when it is empty |
| Cli.OpenHandShowsEveryCard | blackjack/cli.py:61-68 | face up, two hands of deck cards render the same exactly when they are the same hand |
| Cli.HoleCardHidden | blackjack/cli.py:61-68 | with the hole card hidden, two hands render the same exactly when they have the same length and agree on every card except the second |

## Left out

- The random generator of `Deck` (cards.py:25, 32) is not modelled. The shuffle is any permutation of the built shoe. Nothing is claimed about its uniformity, nor about the order a given seed produces.
- Payouts are Python floats. They are modelled as Dafny `real`s, which is exact for the values used (−1, 0, 1, 1.5).
- A rank outside the value table makes the source raise a lookup error. The model makes "every rank has a value" (`Valued`) a precondition of the hand arithmetic instead. Deck cards always meet it (`Hands.StandardCardsAreValued`).
- Cards.Deck.Valid: it states the deck-count bound and that only standard cards remain. It does not state that the remaining cards are a sub-multiset of the shoe; `Draw` states that relation after a rebuild.
- Game.BlackjackGame.constructor: it requires a supplied deck to satisfy `Cards.Deck.Valid`. A deck object that the source could build any other way is not modelled.
- The histories `drawn`, `dealt` and `draws` are ghost. They exist only to state which dealt card went where and have no counterpart in the source.
- `Hand.__str__` (hand.py:37-38) is not modelled; it is display text only.
- `show_table`, `main` and `prompt` (cli.py:20-21, 71-128) are console input and output. They are not modelled.
- `CARD_WIDTH` (cli.py:8) is not used by the source's code; the model uses it only in the width lemmas.
- The source's tests substitute a rigged deck for `Deck`. That substitute is not modelled as a class. Its scenarios are stated as lemmas on the pure settlement and dealer functions (`Game.NaturalBeatsTwenty`, `Game.DealerHitsSixteen`).
- The `is_soft` docstring says "an Ace counted as 11". The code tests "an Ace and a raw sum of at most 21", which is stricter (A,A,5 differs). The model follows the code (`Hands.AceAceFiveIsNotSoft`, `Game.AceAceFiveStandsUnderH17`).
- The graphical front end (`gui.py`, `theme.py`) is not part of this model.
