/** The text-mode table: each card drawn as a five-line ASCII box, a hole card drawn
    face down, and a hand laid out as the boxes side by side (blackjack/cli.py). */
module Cli {
  import opened Cards

  const CARD_WIDTH: nat := 9
  const CARD_HEIGHT: nat := 5

  /** The letter shown for each suit symbol. */
  const SUIT_RENDER: map<string, string> :=
    map["\U{2660}" := "S", "\U{2665}" := "H", "\U{2666}" := "D", "\U{2663}" := "C"]

  /** The top and bottom edge of every box. */
  const EDGE: string := "+-------+"

  /** The letter of a known suit; any other suit text is shown as it is. */
  function RenderSuit(suit: string): string {
    if suit in SUIT_RENDER then SUIT_RENDER[suit] else suit
  }

  /** Spades, hearts, diamonds and clubs show as S, H, D and C; anything that is not one
      of the four suit symbols is shown unchanged. */
  lemma SuitLetters(suit: string)
    ensures RenderSuit(SUITS[0]) == "S" && RenderSuit(SUITS[1]) == "H"
    ensures RenderSuit(SUITS[2]) == "D" && RenderSuit(SUITS[3]) == "C"
    ensures suit !in SUITS ==> RenderSuit(suit) == suit
  {
    assert SUIT_RENDER.Keys == set s | s in SUITS;
  }

  /** The rank in the top-left corner: "10" fills both places, any other rank is
      followed by a space. */
  function FormatRankLeft(rank: string): string {
    if rank == "10" then "10" else rank + " "
  }

  /** The rank in the bottom-right corner: "10" fills both places, any other rank is
      preceded by a space. */
  function FormatRankRight(rank: string): string {
    if rank == "10" then "10" else " " + rank
  }

  /** A rank of one character, or "10", fills a corner of exactly two places, and the
      corner still shows the rank. */
  lemma CornerWidth(rank: string)
    requires |rank| == 1 || rank == "10"
    ensures |FormatRankLeft(rank)| == 2 && |FormatRankRight(rank)| == 2
    ensures FormatRankLeft(rank)[..|rank|] == rank
    ensures FormatRankRight(rank)[2 - |rank|..] == rank
  {
  }

  /** Every rank of the deck is one character long, except "10". */
  lemma RankShape(rank: string)
    requires rank in RANKS
    ensures |rank| == 1 || rank == "10"
    ensures rank != "10" ==> rank[0] != '0' && |rank| == 1
  {
  }

  /** The five lines of a face-up card. */
  function RenderCard(card: Card): (lines: seq<string>)
    ensures |lines| == CARD_HEIGHT
    ensures lines[0] == EDGE && lines[CARD_HEIGHT - 1] == EDGE
    ensures (|card.rank| == 1 || card.rank == "10") && |RenderSuit(card.suit)| == 1 ==>
      forall i :: 0 <= i < CARD_HEIGHT ==> |lines[i]| == CARD_WIDTH
  {
    var suit := RenderSuit(card.suit);
    [EDGE,
     "|" + FormatRankLeft(card.rank) + "     |",
     "|   " + suit + "   |",
     "|     " + FormatRankRight(card.rank) + "|",
     EDGE]
  }

  /** The suit symbol that goes with a letter on the face. */
  function SuitOfLetter(letter: string): string {
    if letter == "S" then SUITS[0]
    else if letter == "H" then SUITS[1]
    else if letter == "D" then SUITS[2]
    else if letter == "C" then SUITS[3]
    else letter
  }

  /** The rank shown in a two-place top-left corner. */
  function RankOfCorner(corner: string): string
    requires |corner| == 2
  {
    if corner[1] == ' ' then corner[..1] else corner
  }

  /** Read a card back off its face: the rank from the top-left corner, the suit from
      the letter in the middle. */
  function ReadFace(lines: seq<string>): Card
    requires |lines| >= 3 && |lines[1]| >= 3 && |lines[2]| >= 5
  {
    Card(RankOfCorner(lines[1][1..3]), SuitOfLetter(lines[2][4..5]))
  }

  /** The top-left corner of a deck rank shows that rank. */
  lemma CornerShowsRank(rank: string)
    requires rank in RANKS
    ensures |FormatRankLeft(rank)| == 2 && RankOfCorner(FormatRankLeft(rank)) == rank
  {
    RankShape(rank);
    CornerWidth(rank);
  }

  /** The letter of a suit symbol tells the symbol. */
  lemma LetterShowsSuit(suit: string)
    requires suit in SUITS
    ensures |RenderSuit(suit)| == 1 && SuitOfLetter(RenderSuit(suit)) == suit
  {
    SuitLetters(suit);
  }

  /** A card of the deck can be read back from its face. */
  lemma ReadRenderedCard(card: Card)
    requires IsStandard(card)
    ensures var lines := RenderCard(card);
      |lines[1]| >= 3 && |lines[2]| >= 5 && ReadFace(lines) == card
  {
    CornerShowsRank(card.rank);
    LetterShowsSuit(card.suit);
    var lines := RenderCard(card);
    var left := FormatRankLeft(card.rank);
    var letter := RenderSuit(card.suit);
    assert lines[1] == "|" + left + "     |";
    assert lines[1][1..3] == left;
    assert lines[2] == "|   " + letter + "   |";
    assert lines[2][4..5] == letter;
  }

  /** Two cards of the deck with the same face are the same card. */
  lemma RenderCardInjective(c: Card, d: Card)
    requires IsStandard(c) && IsStandard(d)
    ensures RenderCard(c) == RenderCard(d) <==> c == d
  {
    ReadRenderedCard(c);
    ReadRenderedCard(d);
  }

  /** A card drawn face down. */
  const HIDDEN_CARD: seq<string> := [EDGE, "|#######|", "|#######|", "|#######|", EDGE]

  /** Every line of a box is CARD_WIDTH wide and every box has CARD_HEIGHT lines. */
  predicate Framed(faces: seq<seq<string>>) {
    forall j :: 0 <= j < |faces| ==>
      |faces[j]| == CARD_HEIGHT && forall i :: 0 <= i < CARD_HEIGHT ==> |faces[j][i]| == CARD_WIDTH
  }

  /** The face-down box has the same frame as a face-up one and shows no card: its middle
      is all '#', where every face-up card shows a blank. */
  lemma HiddenCardShape(card: Card)
    ensures Framed([HIDDEN_CARD])
    ensures HIDDEN_CARD[0] == EDGE && HIDDEN_CARD[CARD_HEIGHT - 1] == EDGE
    ensures HIDDEN_CARD[2][1] == '#' && RenderCard(card)[2][1] == ' '
    ensures HIDDEN_CARD != RenderCard(card)
  {
  }

  /** Python's str.join: the parts with the separator between each two of them. */
  function Join(sep: string, parts: seq<string>): string {
    if |parts| == 0 then ""
    else if |parts| == 1 then parts[0]
    else Join(sep, parts[..|parts| - 1]) + sep + parts[|parts| - 1]
  }

  /** Where part j of a join begins when every part plus separator takes m places:
      j * m, written as repeated addition. */
  function Offset(j: nat, m: nat): nat {
    if j == 0 then 0 else Offset(j - 1, m) + m
  }

  lemma {:induction false} OffsetIsProduct(j: nat, m: nat)
    ensures Offset(j, m) == j * m
  {
    if j > 0 {
      OffsetIsProduct(j - 1, m);
    }
  }

  /** Joining k >= 1 parts of one width w takes k widths and k - 1 separators. */
  lemma {:induction false} JoinFixedLength(sep: string, parts: seq<string>, w: nat)
    requires |parts| >= 1
    requires forall j :: 0 <= j < |parts| ==> |parts[j]| == w
    ensures |Join(sep, parts)| == Offset(|parts|, w + |sep|) - |sep|
  {
    if |parts| > 1 {
      JoinFixedLength(sep, parts[..|parts| - 1], w);
    }
  }

  /** Joining parts of one width w puts part j at offset j * (w + |sep|). */
  lemma {:induction false} JoinFixedSlice(sep: string, parts: seq<string>, w: nat, j: nat)
    requires j < |parts|
    requires forall i :: 0 <= i < |parts| ==> |parts[i]| == w
    ensures Offset(j, w + |sep|) + w <= |Join(sep, parts)|
    ensures Join(sep, parts)[Offset(j, w + |sep|)..Offset(j, w + |sep|) + w] == parts[j]
  {
    if |parts| > 1 {
      var n := |parts| - 1;
      var init := parts[..n];
      var head := Join(sep, init);
      var at := Offset(j, w + |sep|);
      JoinFixedLength(sep, init, w);
      assert Join(sep, parts) == head + sep + parts[n];
      if j < n {
        JoinFixedSlice(sep, init, w, j);
        SliceOfPrefix(head, sep + parts[n], at, at + w);
        assert head + sep + parts[n] == head + (sep + parts[n]);
      } else {
        SliceOfLast(head + sep, parts[n]);
      }
    }
  }

  lemma SliceOfPrefix(a: string, b: string, lo: nat, hi: nat)
    requires lo <= hi <= |a|
    ensures (a + b)[lo..hi] == a[lo..hi]
  {
  }

  lemma SliceOfLast(a: string, b: string)
    ensures (a + b)[|a|..|a| + |b|] == b
  {
  }

  /** Line i of every box, the boxes two spaces apart. */
  function Row(faces: seq<seq<string>>, i: nat): string
    requires forall j :: 0 <= j < |faces| ==> i < |faces[j]|
  {
    Join("  ", seq(|faces|, j requires 0 <= j < |faces| => faces[j][i]))
  }

  /** The boxes side by side: the five rows on separate lines, or "(sin cartas)" when
      there is no box. */
  function Stitch(faces: seq<seq<string>>): string
    requires forall j :: 0 <= j < |faces| ==> |faces[j]| >= CARD_HEIGHT
  {
    if faces == [] then "(sin cartas)"
    else Join("\n", Rows(faces))
  }

  /** With k framed boxes each row is 11k - 2 characters wide and shows line i of box j
      at column 11j. */
  lemma RowLayout(faces: seq<seq<string>>, i: nat)
    requires |faces| >= 1 && Framed(faces) && i < CARD_HEIGHT
    ensures |Row(faces, i)| == 11 * |faces| - 2
    ensures forall j :: 0 <= j < |faces| ==> Row(faces, i)[11 * j..11 * j + 9] == faces[j][i]
  {
    var parts := seq(|faces|, j requires 0 <= j < |faces| => faces[j][i]);
    JoinFixedLength("  ", parts, CARD_WIDTH);
    OffsetIsProduct(|faces|, 11);
    forall j | 0 <= j < |faces|
      ensures Row(faces, i)[11 * j..11 * j + 9] == faces[j][i]
    {
      JoinFixedSlice("  ", parts, CARD_WIDTH, j);
      OffsetIsProduct(j, 11);
    }
  }

  /** The rows of a stitched hand, top to bottom. */
  function Rows(faces: seq<seq<string>>): (rows: seq<string>)
    requires forall j :: 0 <= j < |faces| ==> |faces[j]| >= CARD_HEIGHT
    ensures |rows| == CARD_HEIGHT
  {
    seq(CARD_HEIGHT, i requires 0 <= i < CARD_HEIGHT => Row(faces, i))
  }

  lemma RowsWidth(faces: seq<seq<string>>)
    requires |faces| >= 1 && Framed(faces)
    ensures forall i :: 0 <= i < CARD_HEIGHT ==> |Rows(faces)[i]| == 11 * |faces| - 2
  {
    forall i | 0 <= i < CARD_HEIGHT
      ensures |Rows(faces)[i]| == 11 * |faces| - 2
    {
      RowLayout(faces, i);
    }
  }

  /** The stitched hand of k >= 1 framed boxes is 55k - 6 characters long. */
  lemma StitchLength(faces: seq<seq<string>>)
    requires |faces| >= 1 && Framed(faces)
    ensures |Stitch(faces)| == 55 * |faces| - 6
  {
    RowsWidth(faces);
    JoinFixedLength("\n", Rows(faces), 11 * |faces| - 2);
    OffsetIsProduct(CARD_HEIGHT, 11 * |faces| - 1);
  }

  /** Line i of box j sits in row i of the stitched hand, at column 11j; row i starts
      at Offset(i, 11k - 1), that is at i * (11k - 1) (OffsetIsProduct). */
  lemma StitchAt(faces: seq<seq<string>>, i: nat, j: nat)
    requires |faces| >= 1 && Framed(faces) && i < CARD_HEIGHT && j < |faces|
    ensures var at := Offset(i, 11 * |faces| - 1) + 11 * j;
      at + 9 <= |Stitch(faces)| && Stitch(faces)[at..at + 9] == faces[j][i]
  {
    var w := 11 * |faces| - 2;
    var rows := Rows(faces);
    RowsWidth(faces);
    JoinFixedSlice("\n", rows, w, i);
    RowLayout(faces, i);
    var s := Stitch(faces);
    var start := Offset(i, w + 1);
    assert s[start..start + w] == rows[i];
    SliceOfSlice(s, start, start + w, 11 * j, 11 * j + 9);
  }

  lemma SliceOfSlice(s: string, lo: nat, hi: nat, a: nat, b: nat)
    requires lo <= hi <= |s| && a <= b <= hi - lo
    ensures s[lo..hi][a..b] == s[lo + a..lo + b]
  {
    forall k | 0 <= k < b - a
      ensures s[lo..hi][a..b][k] == s[lo + a..lo + b][k]
    {
      assert s[lo..hi][a..b][k] == s[lo..hi][a + k] == s[lo + a + k];
    }
  }

  /** Stitching loses nothing: framed boxes can be read back from the stitched text. */
  lemma StitchInjective(f: seq<seq<string>>, g: seq<seq<string>>)
    requires Framed(f) && Framed(g)
    requires Stitch(f) == Stitch(g)
    ensures f == g
  {
    if f != [] {
      StitchLength(f);
    }
    if g != [] {
      StitchLength(g);
    }
    if f != [] && g != [] {
      assert |f| == |g|;
      var k := |f|;
      forall j | 0 <= j < k
        ensures f[j] == g[j]
      {
        forall i | 0 <= i < CARD_HEIGHT
          ensures f[j][i] == g[j][i]
        {
          StitchAt(f, i, j);
          StitchAt(g, i, j);
        }
      }
    }
  }

  /** The boxes of a hand in order: box 1 face down when the hole card is hidden, every
      other card face up. */
  function HandFaces(cards: seq<Card>, hideHole: bool): (faces: seq<seq<string>>)
    ensures |faces| == |cards|
    ensures forall j :: 0 <= j < |faces| ==> |faces[j]| == CARD_HEIGHT
  {
    seq(|cards|, j requires 0 <= j < |cards| =>
      if hideHole && j == 1 then HIDDEN_CARD else RenderCard(cards[j]))
  }

  /** Every line of a face-up deck card is CARD_WIDTH wide. */
  lemma StandardCardFramed(card: Card)
    requires IsStandard(card)
    ensures forall i :: 0 <= i < CARD_HEIGHT ==> |RenderCard(card)[i]| == CARD_WIDTH
  {
    LetterShowsSuit(card.suit);
    RankShape(card.rank);
  }

  /** The boxes of a hand of deck cards are framed. */
  lemma StandardFacesFramed(cards: seq<Card>, hideHole: bool)
    requires AllStandard(cards)
    ensures Framed(HandFaces(cards, hideHole))
  {
    var faces := HandFaces(cards, hideHole);
    forall j | 0 <= j < |cards|
      ensures forall i :: 0 <= i < CARD_HEIGHT ==> |faces[j][i]| == CARD_WIDTH
    {
      if !(hideHole && j == 1) {
        StandardCardFramed(cards[j]);
      }
    }
  }

  /** Draw a hand: one box per card in order, the second card face down when asked. */
  method RenderHand(handCards: seq<Card>, hideHole: bool) returns (s: string)
    ensures s == Stitch(HandFaces(handCards, hideHole))
  {
    var rendered: seq<seq<string>> := [];
    for idx := 0 to |handCards|
      invariant |rendered| == idx
      invariant forall j :: 0 <= j < idx ==> rendered[j] == HandFaces(handCards, hideHole)[j]
    {
      if hideHole && idx == 1 {
        rendered := rendered + [HIDDEN_CARD];
      } else {
        rendered := rendered + [RenderCard(handCards[idx])];
      }
    }
    assert rendered == HandFaces(handCards, hideHole);
    s := Stitch(rendered);
  }

  /** A hand of deck cards shows the "(sin cartas)" placeholder exactly when it is
      empty, whether or not the hole card is hidden. */
  lemma EmptyHandPlaceholder(cards: seq<Card>, hideHole: bool)
    requires AllStandard(cards)
    ensures Stitch(HandFaces(cards, hideHole)) == "(sin cartas)" <==> cards == []
  {
    if cards != [] {
      StandardFacesFramed(cards, hideHole);
      StitchLength(HandFaces(cards, hideHole));
    }
  }

  /** Shown face up, two hands of deck cards look the same exactly when they are the
      same hand. */
  lemma OpenHandShowsEveryCard(cards: seq<Card>, other: seq<Card>)
    requires AllStandard(cards) && AllStandard(other)
    ensures Stitch(HandFaces(cards, false)) == Stitch(HandFaces(other, false)) <==> cards == other
  {
    if Stitch(HandFaces(cards, false)) == Stitch(HandFaces(other, false)) {
      StandardFacesFramed(cards, false);
      StandardFacesFramed(other, false);
      StitchInjective(HandFaces(cards, false), HandFaces(other, false));
      forall j | 0 <= j < |cards|
        ensures cards[j] == other[j]
      {
        assert HandFaces(cards, false)[j] == RenderCard(cards[j]);
        assert HandFaces(other, false)[j] == RenderCard(other[j]);
        RenderCardInjective(cards[j], other[j]);
      }
    }
  }

  /** With the hole card hidden, two hands of deck cards look the same exactly when they
      have the same length and agree on every card but the second: the hole card, and
      only it, is kept from view. */
  lemma HoleCardHidden(cards: seq<Card>, other: seq<Card>)
    requires AllStandard(cards) && AllStandard(other)
    ensures Stitch(HandFaces(cards, true)) == Stitch(HandFaces(other, true)) <==>
      |cards| == |other| && forall j :: 0 <= j < |cards| && j != 1 ==> cards[j] == other[j]
  {
    var f, g := HandFaces(cards, true), HandFaces(other, true);
    if Stitch(f) == Stitch(g) {
      StandardFacesFramed(cards, true);
      StandardFacesFramed(other, true);
      StitchInjective(f, g);
      forall j | 0 <= j < |cards| && j != 1
        ensures cards[j] == other[j]
      {
        assert f[j] == RenderCard(cards[j]) && g[j] == RenderCard(other[j]);
        RenderCardInjective(cards[j], other[j]);
      }
    }
    if |cards| == |other| && forall j :: 0 <= j < |cards| && j != 1 ==> cards[j] == other[j] {
      assert f == g;
    }
  }
}
