/** Uno cards: the 108-card deck in the order it is built, its composition,
    the playability rule, and the facts about turning up the first discard
    (wild cards on top are moved to the bottom until a non-wild shows). */
module UnoCards {
  import opened Wrappers
  import opened Piles

  /** A card's colour; wild cards carry the colour `wild` until played. */
  datatype Color = Red | Blue | Green | Yellow | WildColor

  /** A card's face: a number card '0'..'9', an action, or a wild. */
  datatype Value = Number(n: nat) | Skip | Reverse | Draw2 | Wild | Wild4

  datatype Card = Card(color: Color, value: Value)

  /** The position of a colour in the `colors` array (4 for the wild colour). */
  function ColorIndex(c: Color): (i: nat)
    ensures i <= 4 && (i < 4 <==> c != WildColor)
  {
    match c
    case Red => 0
    case Blue => 1
    case Green => 2
    case Yellow => 3
    case WildColor => 4
  }

  /** The `colors` array `['red', 'blue', 'green', 'yellow']` read at `i`. */
  function ColorAt(i: nat): (c: Color)
    requires i < 4
    ensures ColorIndex(c) == i
  {
    if i == 0 then Red else if i == 1 then Blue else if i == 2 then Green else Yellow
  }

  lemma ColorAtIndex(c: Color)
    requires c != WildColor
    ensures ColorAt(ColorIndex(c)) == c
  {
  }

  /** A card of type `wild`: only the two wild faces are built with it. */
  predicate IsWild(card: Card)
  {
    card.value == Wild || card.value == Wild4
  }

  // ---------------------------------------------------------------------
  // The deck, in the order `setupGame` pushes it

  /** Two copies of one card. */
  function Pair(card: Card): seq<Card>
  {
    [card, card]
  }

  /** Two of each number 1..n in colour `c`. */
  function NumberPairs(c: Color, n: nat): seq<Card>
  {
    if n == 0 then [] else NumberPairs(c, n - 1) + Pair(Card(c, Number(n)))
  }

  /** One colour's 25 cards: a 0, two of each 1..9, two skips, two
      reverses, two draw-twos. */
  function ColorBlock(c: Color): seq<Card>
  {
    [Card(c, Number(0))] + NumberPairs(c, 9) + Pair(Card(c, Skip)) + Pair(Card(c, Reverse)) + Pair(Card(c, Draw2))
  }

  /** The blocks of the first `k` colours. */
  function ColorBlocks(k: nat): seq<Card>
    requires k <= 4
  {
    if k == 0 then [] else ColorBlocks(k - 1) + ColorBlock(ColorAt(k - 1))
  }

  /** `k` rounds of one wild and one wild draw-four. */
  function WildPairs(k: nat): seq<Card>
  {
    if k == 0 then [] else WildPairs(k - 1) + [Card(WildColor, Wild), Card(WildColor, Wild4)]
  }

  /** The freshly built, unshuffled deck. */
  function UnoDeck(): seq<Card>
  {
    ColorBlocks(4) + WildPairs(4)
  }

  /** How many cards of one colour show the face `v`: one 0, two of every
      other number 1..9 and two of every action. */
  function PerColor(v: Value): nat
  {
    match v
    case Number(n) => if n == 0 then 1 else if n <= 9 then 2 else 0
    case Wild => 0
    case Wild4 => 0
    case _ => 2
  }

  /** How many copies of a card a standard deck holds: `PerColor` in each of
      the four colours, and four of each wild. */
  function Copies(x: Card): nat
  {
    if x.color == WildColor then (if IsWild(x) then 4 else 0) else PerColor(x.value)
  }

  lemma PairCount(y: Card, x: Card)
    ensures Count(Pair(y), x) == if x == y then 2 else 0
  {
    assert Pair(y)[..1] == [y] && [y][..0] == [];
    assert Count([y], x) == if y == x then 1 else 0;
  }

  lemma {:induction false} NumberPairsCount(c: Color, n: nat, x: Card)
    ensures Count(NumberPairs(c, n), x)
         == if x.color == c && x.value.Number? && 1 <= x.value.n <= n then 2 else 0
  {
    if n > 0 {
      NumberPairsCount(c, n - 1, x);
      PairCount(Card(c, Number(n)), x);
      CountAppend(NumberPairs(c, n - 1), Pair(Card(c, Number(n))), x);
    }
  }

  /** The five parts of a colour block add up to `PerColor` of that colour. */
  lemma ColorBlockParts(c: Color, x: Card)
    requires c != WildColor
    ensures (if x == Card(c, Number(0)) then 1 else 0)
          + (if x.color == c && x.value.Number? && 1 <= x.value.n <= 9 then 2 else 0)
          + (if x == Card(c, Skip) then 2 else 0)
          + (if x == Card(c, Reverse) then 2 else 0)
          + (if x == Card(c, Draw2) then 2 else 0)
         == if x.color == c then PerColor(x.value) else 0
  {
  }

  lemma ColorBlockCount(c: Color, x: Card)
    requires c != WildColor
    ensures Count(ColorBlock(c), x) == if x.color == c then PerColor(x.value) else 0
  {
    var z, ns := [Card(c, Number(0))], NumberPairs(c, 9);
    var sk, rv, d2 := Pair(Card(c, Skip)), Pair(Card(c, Reverse)), Pair(Card(c, Draw2));
    NumberPairsCount(c, 9, x);
    PairCount(Card(c, Skip), x);
    PairCount(Card(c, Reverse), x);
    PairCount(Card(c, Draw2), x);
    assert z[..0] == [];
    assert Count(z, x) == if x == Card(c, Number(0)) then 1 else 0;
    CountFive(z, ns, sk, rv, d2, x);
    ColorBlockParts(c, x);
  }

  /** Counting across five concatenated parts. */
  lemma CountFive(a: seq<Card>, b: seq<Card>, c: seq<Card>, d: seq<Card>, e: seq<Card>, x: Card)
    ensures Count(a + b + c + d + e, x) == Count(a, x) + Count(b, x) + Count(c, x) + Count(d, x) + Count(e, x)
  {
    CountAppend(a, b, x);
    CountAppend(a + b, c, x);
    CountAppend(a + b + c, d, x);
    CountAppend(a + b + c + d, e, x);
  }

  /** Appending the block of the colour at position `k` extends the count
      of the first `k` colours to the first `k + 1`. */
  lemma ColorBlockStep(prev: seq<Card>, k: nat, x: Card)
    requires k < 4
    requires Count(prev, x) == if ColorIndex(x.color) < k then PerColor(x.value) else 0
    ensures Count(prev + ColorBlock(ColorAt(k)), x)
         == if ColorIndex(x.color) < k + 1 then PerColor(x.value) else 0
  {
    var c := ColorAt(k);
    ColorBlockCount(c, x);
    CountAppend(prev, ColorBlock(c), x);
    if x.color != WildColor {
      ColorAtIndex(x.color);
    }
  }

  lemma {:induction false} ColorBlocksCount(k: nat, x: Card)
    requires k <= 4
    ensures Count(ColorBlocks(k), x) == if ColorIndex(x.color) < k then PerColor(x.value) else 0
  {
    if k > 0 {
      ColorBlocksCount(k - 1, x);
      ColorBlockStep(ColorBlocks(k - 1), k - 1, x);
    }
  }

  lemma {:induction false} WildPairsCount(k: nat, x: Card)
    ensures Count(WildPairs(k), x) == if x.color == WildColor && IsWild(x) then k else 0
  {
    if k > 0 {
      var w := [Card(WildColor, Wild), Card(WildColor, Wild4)];
      WildPairsCount(k - 1, x);
      CountAppend(WildPairs(k - 1), w, x);
      assert w[..1] == [Card(WildColor, Wild)] && w[..1][..0] == [];
    }
  }

  /** The deck as `UnoDeck` builds it, from four colour blocks and four
      wild rounds (`k` is that four), holds each card in the number of
      copies `Copies` gives. */
  lemma UnoDeckCount(k: nat, x: Card)
    requires k == 4
    ensures multiset(ColorBlocks(k) + WildPairs(k))[x] == Copies(x)
  {
    ColorBlocksCount(k, x);
    WildPairsCount(k, x);
    JoinCounts(ColorBlocks(k), WildPairs(k), x);
  }

  /** The colour blocks and the wild pairs together hold `Copies(x)`. */
  lemma JoinCounts(blocks: seq<Card>, wilds: seq<Card>, x: Card)
    requires Count(blocks, x) == if ColorIndex(x.color) < 4 then PerColor(x.value) else 0
    requires Count(wilds, x) == if x.color == WildColor && IsWild(x) then 4 else 0
    ensures multiset(blocks + wilds)[x] == Copies(x)
  {
    CountAppend(blocks, wilds, x);
    CountIsMultiplicity(blocks + wilds, x);
  }

  lemma {:induction false} NumberPairsSize(c: Color, n: nat)
    ensures |NumberPairs(c, n)| == 2 * n
  {
    if n > 0 {
      NumberPairsSize(c, n - 1);
    }
  }

  lemma {:induction false} ColorBlocksSize(k: nat)
    requires k <= 4
    ensures |ColorBlocks(k)| == 25 * k
  {
    if k > 0 {
      ColorBlocksSize(k - 1);
      NumberPairsSize(ColorAt(k - 1), 9);
    }
  }

  lemma {:induction false} WildPairsSize(k: nat)
    ensures |WildPairs(k)| == 2 * k
  {
    if k > 0 {
      WildPairsSize(k - 1);
    }
  }

  /** The built deck has 108 cards. */
  lemma UnoDeckSize()
    ensures |UnoDeck()| == 108
  {
    ColorBlocksSize(4);
    WildPairsSize(4);
  }

  // ---------------------------------------------------------------------
  // Playability

  /** `canPlayCard`: nothing is playable before a current colour and value
      exist; a wild always is; otherwise the colour or the value must match. */
  function Playable(currentColor: Option<Color>, currentValue: Option<Value>, card: Card): (b: bool)
    ensures currentColor == None || currentValue == None ==> !b
    ensures currentColor.Some? && currentValue.Some? && IsWild(card) ==> b
    ensures b && !IsWild(card) ==> card.color == currentColor.value || card.value == currentValue.value
  {
    && currentColor.Some? && currentValue.Some?
    && (IsWild(card) || card.color == currentColor.value || card.value == currentValue.value)
  }

  /** The index the search in `opponentTurn` stops at, scanning `hand` from
      `from`: the first playable card, or -1 when there is none. */
  function FirstPlayable(currentColor: Option<Color>, currentValue: Option<Value>, hand: seq<Card>, from: nat): (i: int)
    requires from <= |hand|
    ensures i == -1 || (from <= i < |hand| && Playable(currentColor, currentValue, hand[i]))
    ensures forall j :: from <= j < |hand| && (i == -1 || j < i) ==> !Playable(currentColor, currentValue, hand[j])
    decreases |hand| - from
  {
    if from == |hand| then -1
    else if Playable(currentColor, currentValue, hand[from]) then from
    else FirstPlayable(currentColor, currentValue, hand, from + 1)
  }

  /** Once the current colour and value are those of the top discard, a card
      is playable exactly when it is wild or matches the top discard in
      colour or face. */
  lemma PlayableAgainstTop(top: Card, card: Card)
    ensures Playable(Some(top.color), Some(top.value), card)
        <==> IsWild(card) || card.color == top.color || card.value == top.value
  {
  }

  // ---------------------------------------------------------------------
  // Turning up the first discard

  /** The number of wild cards at the top (end) of a pile. */
  function WildRun(s: seq<Card>): (k: nat)
    ensures k <= |s|
  {
    if s == [] || !IsWild(s[|s| - 1]) then 0 else 1 + WildRun(s[..|s| - 1])
  }

  predicate HasNonWild(s: seq<Card>)
  {
    exists k :: 0 <= k < |s| && !IsWild(s[k])
  }

  /** Below the run of wilds on top lies a non-wild card whenever the pile
      holds one. */
  lemma {:induction false} WildRunStops(s: seq<Card>)
    requires HasNonWild(s)
    ensures WildRun(s) < |s|
    ensures !IsWild(s[|s| - 1 - WildRun(s)])
  {
    if IsWild(s[|s| - 1]) {
      var t := s[..|s| - 1];
      var k :| 0 <= k < |s| && !IsWild(s[k]);
      assert t[k] == s[k];
      WildRunStops(t);
    }
  }

  /** Counting down from the top, the cards of the run counted by
      `WildRun` are wild and the one just below the run is not. */
  lemma {:induction false} WildRunAt(s: seq<Card>, j: nat)
    requires HasNonWild(s) && j <= WildRun(s)
    ensures WildRun(s) < |s|
    ensures IsWild(s[|s| - 1 - j]) <==> j < WildRun(s)
  {
    WildRunStops(s);
    if j > 0 && j < WildRun(s) {
      var t := s[..|s| - 1];
      var k :| 0 <= k < |s| && !IsWild(s[k]);
      assert k < |s| - 1 && t[k] == s[k];
      WildRunAt(t, j - 1);
    }
  }

  /** The card `setupGame` turns up from pile `r`: the topmost non-wild
      card, found below the run of wilds on top. */
  function FirstDiscard(r: seq<Card>): (c: Card)
    requires HasNonWild(r)
    ensures !IsWild(c) && c in r
  {
    WildRunStops(r);
    r[|r| - 1 - WildRun(r)]
  }

  /** The pile after `j` wilds were moved from the top to the bottom, one
      by one, with the card then on top popped off. */
  function Rotated(r: seq<Card>, j: nat): (d: seq<Card>)
    requires j < |r|
    ensures |d| == |r| - 1
  {
    r[|r| - j..] + r[..|r| - 1 - j]
  }

  /** Putting the popped card back at the bottom and popping again moves
      one more card round. */
  lemma RotateStep(r: seq<Card>, j: nat)
    requires j + 1 < |r|
    ensures var d := [r[|r| - 1 - j]] + Rotated(r, j);
      d[|d| - 1] == r[|r| - 2 - j] && d[..|d| - 1] == Rotated(r, j + 1)
  {
    var d := [r[|r| - 1 - j]] + Rotated(r, j);
    assert d == r[|r| - 1 - j..] + r[..|r| - 1 - j];
  }

  /** The pile left behind: the wilds that were on top, moved one by one to
      the bottom (so in their original order), under the cards that were
      below the turned-up card. */
  function AfterFirstDiscard(r: seq<Card>): seq<Card>
    requires HasNonWild(r)
  {
    WildRunStops(r);
    Rotated(r, WildRun(r))
  }

  /** Turning up the first discard only moves cards: the turned-up card and
      the pile left behind together are the pile it was taken from. */
  lemma TurnUpKeepsCards(r: seq<Card>)
    requires HasNonWild(r)
    ensures |AfterFirstDiscard(r)| == |r| - 1
    ensures multiset(AfterFirstDiscard(r)) + multiset{FirstDiscard(r)} == multiset(r)
  {
    WildRunStops(r);
    var n, k := |r|, WildRun(r);
    assert r == r[..n - k - 1] + [r[n - k - 1]] + r[n - k..];
  }

  /** The cards moved to the bottom of the pile are the wilds that were on
      top of it. */
  lemma TurnUpMovesWilds(r: seq<Card>)
    requires HasNonWild(r)
    ensures forall j :: 0 <= j < WildRun(r) ==> IsWild(AfterFirstDiscard(r)[j])
  {
    WildRunStops(r);
    var n, k := |r|, WildRun(r);
    forall j | 0 <= j < k
      ensures IsWild(AfterFirstDiscard(r)[j])
    {
      WildRunAt(r, k - 1 - j);
      assert AfterFirstDiscard(r)[j] == r[n - k + j];
    }
  }

  /** A pile with only wild cards in it has at most two kinds of card, so
      it is no larger than the number of wilds it was taken from. */
  lemma {:induction false} SizeOfTwoKinds(t: seq<Card>, a: Card, b: Card)
    requires a != b
    requires forall k :: 0 <= k < |t| ==> t[k] == a || t[k] == b
    ensures |t| == Count(t, a) + Count(t, b)
  {
    if t != [] {
      SizeOfTwoKinds(t[..|t| - 1], a, b);
    }
  }

  /** A multiset of cards with the composition of one standard deck: one 0
      and two of each 1..9, skip, reverse and draw-two per colour, four
      wilds and four wild draw-fours, and nothing else. */
  ghost predicate IsStandardDeck(m: multiset<Card>)
  {
    forall x {:trigger Copies(x)} :: m[x] == Copies(x)
  }

  /** The built deck has the standard composition. */
  lemma UnoDeckComposition()
    ensures IsStandardDeck(multiset(UnoDeck()))
  {
    forall x
      ensures multiset(UnoDeck())[x] == Copies(x)
    {
      UnoDeckCount(4, x);
    }
  }

  /** More than eight cards taken from a standard deck cannot all be wild:
      the deck holds only four of each of the two wild faces. */
  lemma NotAllWild(t: seq<Card>, full: multiset<Card>)
    requires IsStandardDeck(full)
    requires multiset(t) <= full && |t| > 8
    ensures HasNonWild(t)
  {
    if !HasNonWild(t) {
      var a, b := Card(WildColor, Wild), Card(WildColor, Wild4);
      assert full[a] == Copies(a) == 4 && full[b] == Copies(b) == 4;
      forall k | 0 <= k < |t|
        ensures t[k] == a || t[k] == b
      {
        assert t[k] in multiset(t);
        assert Copies(t[k]) > 0;
      }
      SizeOfTwoKinds(t, a, b);
      CountIsMultiplicity(t, a);
      CountIsMultiplicity(t, b);
      assert false;
    }
  }
}
