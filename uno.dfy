/** The Uno table: the player against a bot, sharing one discard pile and
    one draw pile. The random choices are parameters: the shuffle's picks
    and the colour index the bot draws for a wild. A timer-scheduled
    `opponentTurn` is the next call a caller makes. */
module Uno {
  import opened Wrappers
  import opened GameManager
  import opened Piles
  import opened UnoCards

  /** The states the source's `gameState` comment lists; no operation ever
      sets `waiting`. */
  datatype GameState = Playing | Waiting | GameOver

  /** What a click on a card of the player's hand did. */
  datatype PlayOutcome = Ignored | NotPlayable | WildPlayed | Played | PlayerWon

  /** What the bot's turn did. */
  datatype OpponentMove = Idle | OpponentPlayed(card: Card) | OpponentWon(card: Card) | OpponentDrew

  /** The top of a pile. */
  function Last(s: seq<Card>): Card
    requires s != []
  {
    s[|s| - 1]
  }

  /** The cards of a hand without the one at `i`, as `splice(i, 1)` leaves it. */
  function Without(hand: seq<Card>, i: nat): (r: seq<Card>)
    requires i < |hand|
    ensures |r| == |hand| - 1
  {
    hand[..i] + hand[i + 1..]
  }

  /** Taking the card at `i` out of a hand only removes that card and keeps
      the others in order. */
  lemma WithoutKeeps(hand: seq<Card>, i: nat)
    requires i < |hand|
    ensures multiset(Without(hand, i)) + multiset{hand[i]} == multiset(hand)
    ensures forall k :: 0 <= k < |hand| - 1 ==> Without(hand, i)[k] == hand[if k < i then k else k + 1]
  {
    assert hand == hand[..i] + [hand[i]] + hand[i + 1..];
  }

  /** The pile a draw takes from: the draw pile, or, when it is empty, every
      discard but the top, in the order they lie (the "reshuffle" shuffles
      the empty `deck`, not this pile). */
  function DrawSource(drawPile: seq<Card>, discardPile: seq<Card>): (src: seq<Card>)
    requires discardPile != []
    ensures drawPile != [] ==> src == drawPile
    ensures drawPile == [] ==> src == discardPile[..|discardPile| - 1] && |src| == |discardPile| - 1
  {
    if drawPile != [] then drawPile else discardPile[..|discardPile| - 1]
  }

  /** The number of cards `n` capped by the size of the pile they come from. */
  function Min(n: nat, m: nat): (r: nat)
    ensures r <= n && r <= m && (r == n || r == m)
  {
    if n < m then n else m
  }

  /** How many cards a card played by the bot makes someone draw: four
      (for the player) for a wild draw-four, two (for the bot itself) for a
      draw-two. */
  function Penalty(v: Value): (n: nat)
    ensures n > 0 <==> v == Wild4 || v == Draw2
  {
    if v == Wild4 then 4 else if v == Draw2 then 2 else 0
  }

  /** A bot's wild takes the colour at `colorPick`; other cards keep theirs. */
  function Recolored(card: Card, colorPick: nat): (r: Card)
    requires colorPick < 4
    ensures r.value == card.value
    ensures r.color == if IsWild(card) then ColorAt(colorPick) else card.color
  {
    if IsWild(card) then Card(ColorAt(colorPick), card.value) else card
  }

  /** The `i`-th round of dealing, a pop to each hand, only moves cards. */
  lemma DealRound(deck: seq<Card>, i: nat, player: seq<Card>, opponent: seq<Card>)
    requires 0 < i && 2 * i <= |deck|
    ensures multiset(deck[..|deck| - 2 * i]) + multiset(player + [deck[|deck| - 2 * i + 1]]) + multiset(opponent + [deck[|deck| - 2 * i]])
         == multiset(deck[..|deck| - 2 * (i - 1)]) + multiset(player) + multiset(opponent)
  {
    var n := |deck| - 2 * i;
    assert deck[..n + 2] == deck[..n] + [deck[n]] + [deck[n + 1]];
  }

  /** The cards `i` rounds of dealing give one hand: each round the player
      takes the top card and the opponent (`second`) the one below it. */
  function Dealt(deck: seq<Card>, i: nat, second: bool): (h: seq<Card>)
    requires 2 * i <= |deck|
    ensures |h| == i
  {
    if i == 0 then [] else Dealt(deck, i - 1, second) + [deck[|deck| - 2 * i + (if second then 0 else 1)]]
  }

  /** The `m`-th card of a hand is the one `2 * m` places below the card
      the hand took first. */
  lemma {:induction false} DealtCards(deck: seq<Card>, i: nat, second: bool)
    requires 2 * i <= |deck|
    ensures forall m :: 0 <= m < i ==> Dealt(deck, i, second)[m] == deck[|deck| - 1 - 2 * m - (if second then 1 else 0)]
  {
    if i > 0 {
      DealtCards(deck, i - 1, second);
    }
  }

  /** After `i` rounds the two hands and what is left of the deck hold the
      cards of the deck. */
  lemma {:induction false} DealtKeeps(deck: seq<Card>, i: nat)
    requires 2 * i <= |deck|
    ensures multiset(deck[..|deck| - 2 * i]) + multiset(Dealt(deck, i, false)) + multiset(Dealt(deck, i, true)) == multiset(deck)
  {
    if i > 0 {
      DealtKeeps(deck, i - 1);
      DealRound(deck, i, Dealt(deck, i - 1, false), Dealt(deck, i - 1, true));
    } else {
      assert deck[..|deck| - 2 * i] == deck;
    }
  }

  /** Two pushes of `x` append a pair to the part after `prefix`. */
  lemma PushTwice(prefix: seq<Card>, s: seq<Card>, x: Card)
    ensures prefix + s + [x] + [x] == prefix + (s + Pair(x))
  {
  }

  /** Two pushes append `x` and `y` to the part after `prefix`. */
  lemma PushTwo(prefix: seq<Card>, s: seq<Card>, x: Card, y: Card)
    ensures prefix + s + [x] + [y] == prefix + (s + [x, y])
  {
  }

  /** The pushes for one colour, in order, append that colour's block. */
  lemma ActionPushes(before: seq<Card>, c: Color)
    ensures before + [Card(c, Number(0))] + NumberPairs(c, 9)
        + [Card(c, Skip)] + [Card(c, Skip)] + [Card(c, Reverse)] + [Card(c, Reverse)]
        + [Card(c, Draw2)] + [Card(c, Draw2)]
     == before + ColorBlock(c)
  {
  }

  /** Dealing and turning up the first discard only move cards: the two
      hands, the discard and the draw pile hold what the deck held. */
  lemma SetupKeepsCards(deck: seq<Card>, rest: seq<Card>, player: seq<Card>, opponent: seq<Card>, first: Card, draw: seq<Card>)
    requires IsStandardDeck(multiset(deck))
    requires multiset(rest) + multiset(player) + multiset(opponent) == multiset(deck)
    requires multiset(draw) + multiset{first} == multiset(rest)
    ensures IsStandardDeck(multiset(player) + multiset(opponent) + multiset{first} + multiset(draw))
  {
    assert multiset(player) + multiset(opponent) + multiset{first} + multiset(draw) == multiset(deck);
  }

  /** One pass of the per-colour loop of `setupGame`: a 0, two of each
      1..9, two skips, two reverses and two draw-twos. */
  method PushColorBlock(d0: seq<Card>, color: Color) returns (d: seq<Card>)
    ensures d == d0 + ColorBlock(color)
  {
    d := d0 + [Card(color, Number(0))];
    for n := 1 to 10
      invariant d == d0 + [Card(color, Number(0))] + NumberPairs(color, n - 1)
    {
      d := d + [Card(color, Number(n))];
      d := d + [Card(color, Number(n))];
      PushTwice(d0 + [Card(color, Number(0))], NumberPairs(color, n - 1), Card(color, Number(n)));
    }
    d := d + [Card(color, Skip)];
    d := d + [Card(color, Skip)];
    d := d + [Card(color, Reverse)];
    d := d + [Card(color, Reverse)];
    d := d + [Card(color, Draw2)];
    d := d + [Card(color, Draw2)];
    ActionPushes(d0, color);
  }

  /** The wild loop of `setupGame`: `k` rounds of a wild and a wild
      draw-four. */
  method PushWildPairs(d0: seq<Card>, k: nat) returns (d: seq<Card>)
    ensures d == d0 + WildPairs(k)
  {
    d := d0;
    for i := 0 to k
      invariant d == d0 + WildPairs(i)
    {
      d := d + [Card(WildColor, Wild)];
      d := d + [Card(WildColor, Wild4)];
      PushTwo(d0, WildPairs(i), Card(WildColor, Wild), Card(WildColor, Wild4));
    }
  }

  /** The deck-building loops of `setupGame`: the four colour blocks, then
      four rounds of wilds. */
  method BuildDeck() returns (deck: seq<Card>)
    ensures deck == UnoDeck()
  {
    var d: seq<Card> := [];
    for ci := 0 to 4
      invariant d == ColorBlocks(ci)
    {
      d := PushColorBlock(d, ColorAt(ci));
    }
    deck := PushWildPairs(d, 4);
  }

  /** What the deck-building loops guarantee: 108 cards of the standard
      composition. */
  method FreshDeck() returns (deck: seq<Card>)
    ensures |deck| == 108 && IsStandardDeck(multiset(deck))
  {
    deck := BuildDeck();
    UnoDeckSize();
    UnoDeckComposition();
  }

  /** The dealing loop: seven rounds of one card from the top of `deck`
      to the player, then one to the opponent. */
  method DealHands(deck: seq<Card>) returns (rest: seq<Card>, playerHand: seq<Card>, opponentHand: seq<Card>)
    requires |deck| >= 14
    ensures rest == deck[..|deck| - 14]
    ensures |playerHand| == 7 && |opponentHand| == 7
    ensures forall m :: 0 <= m < 7 ==> playerHand[m] == deck[|deck| - 1 - 2 * m]
    ensures forall m :: 0 <= m < 7 ==> opponentHand[m] == deck[|deck| - 2 - 2 * m]
    ensures multiset(rest) + multiset(playerHand) + multiset(opponentHand) == multiset(deck)
  {
    var d: seq<Card>, p: seq<Card>, o: seq<Card> := deck, [], [];
    for i := 0 to 7
      invariant d == deck[..|deck| - 2 * i]
      invariant p == Dealt(deck, i, false) && o == Dealt(deck, i, true)
    {
      p := p + [d[|d| - 1]];
      d := d[..|d| - 1];
      o := o + [d[|d| - 1]];
      d := d[..|d| - 1];
    }
    DealtKeeps(deck, 7);
    DealtCards(deck, 7, false);
    DealtCards(deck, 7, true);
    rest, playerHand, opponentHand := d, p, o;
  }

  /** The first-discard loop: pop a card; while it is wild, put it back
      at the bottom and pop again. It stops because a non-wild card lies
      below the wilds on top. */
  method TurnUpFirstCard(deck: seq<Card>) returns (first: Card, rest: seq<Card>)
    requires HasNonWild(deck)
    ensures first == FirstDiscard(deck)
    ensures rest == AfterFirstDiscard(deck)
  {
    var d := deck;
    ghost var k := WildRun(deck);
    WildRunAt(deck, 0);
    first := d[|d| - 1];
    d := d[..|d| - 1];
    ghost var j := 0;
    while IsWild(first)
      invariant 0 <= j <= k < |deck|
      invariant first == deck[|deck| - 1 - j] && (IsWild(first) <==> j < k)
      invariant d == Rotated(deck, j)
      decreases k - j
    {
      RotateStep(deck, j);
      WildRunAt(deck, j + 1);
      d := [first] + d;
      first := d[|d| - 1];
      d := d[..|d| - 1];
      j := j + 1;
    }
    rest := d;
  }

  /** `n` pops from `pile` onto the end of `hand`, a pop being skipped
      once `pile` is empty: the piles `giveCards` leaves. */
  function Take(n: nat, pile: seq<Card>, hand: seq<Card>): (seq<Card>, seq<Card>)
  {
    if n == 0 || pile == [] then (pile, hand)
    else Take(n - 1, pile[..|pile| - 1], hand + [pile[|pile| - 1]])
  }

  /** `Take` moves the top `min(n, |pile|)` cards to the hand, top card
      first. */
  lemma {:induction false} TakeMoves(n: nat, pile: seq<Card>, hand: seq<Card>)
    ensures var m := Min(n, |pile|);
      Take(n, pile, hand) == (pile[..|pile| - m], hand + Reversed(pile[|pile| - m..]))
  {
    var m := Min(n, |pile|);
    if n == 0 || pile == [] {
      assert pile[..|pile| - m] == pile && pile[|pile| - m..] == [];
      assert hand + Reversed([]) == hand;
    } else {
      var top, rest := pile[|pile| - 1], pile[..|pile| - 1];
      assert Min(n - 1, |rest|) == m - 1;
      TakeMoves(n - 1, rest, hand + [top]);
      TopSlices(pile, m);
      var moved := rest[|rest| - (m - 1)..];
      ReversedSnoc(moved, top);
      assert hand + [top] + Reversed(moved) == hand + Reversed(moved + [top]);
    }
  }

  /** Taking `m` cards off `pile` is taking its top card and then `m - 1`
      cards off the rest. */
  lemma TopSlices(pile: seq<Card>, m: nat)
    requires 0 < m <= |pile|
    ensures var rest := pile[..|pile| - 1];
      && rest[..|rest| - (m - 1)] == pile[..|pile| - m]
      && pile[|pile| - m..] == rest[|rest| - (m - 1)..] + [pile[|pile| - 1]]
  {
  }

  /** `Take` loses no card and makes none up. */
  lemma TakeKeeps(n: nat, pile: seq<Card>, hand: seq<Card>)
    ensures multiset(Take(n, pile, hand).0) + multiset(Take(n, pile, hand).1) == multiset(pile) + multiset(hand)
  {
    TakeMoves(n, pile, hand);
    var m := Min(n, |pile|);
    ReversedFacts(pile[|pile| - m..]);
    assert pile == pile[..|pile| - m] + pile[|pile| - m..];
  }

  /** The pop loop of `giveCards`. */
  method PopInto(pile0: seq<Card>, hand0: seq<Card>, n: nat) returns (pile: seq<Card>, hand: seq<Card>)
    ensures (pile, hand) == Take(n, pile0, hand0)
  {
    pile, hand := pile0, hand0;
    for i := 0 to n
      invariant Take(n - i, pile, hand) == Take(n, pile0, hand0)
    {
      if pile != [] {
        hand := hand + [pile[|pile| - 1]];
        pile := pile[..|pile| - 1];
      }
    }
  }

  /** The rest of `setupGame` on a shuffled standard deck: deal the two
      hands, turn up the first non-wild card; what is left is the draw
      pile. Every card of the deck ends up in exactly one place. */
  method DealAndTurnUp(deck: seq<Card>) returns (first: Card, player: seq<Card>, opponent: seq<Card>, draw: seq<Card>)
    requires |deck| == 108 && IsStandardDeck(multiset(deck))
    ensures |player| == 7 && |opponent| == 7 && |draw| == 93
    ensures forall m :: 0 <= m < 7 ==> player[m] == deck[|deck| - 1 - 2 * m]
    ensures forall m :: 0 <= m < 7 ==> opponent[m] == deck[|deck| - 2 - 2 * m]
    ensures HasNonWild(deck[..94]) && first == FirstDiscard(deck[..94]) && draw == AfterFirstDiscard(deck[..94])
    ensures !IsWild(first)
    ensures IsStandardDeck(multiset(player) + multiset(opponent) + multiset{first} + multiset(draw))
  {
    var rest;
    rest, player, opponent := DealHands(deck);
    NotAllWild(rest, multiset(deck));
    first, draw := TurnUpFirstCard(rest);
    TurnUpKeepsCards(rest);
    SetupKeepsCards(deck, rest, player, opponent, first, draw);
  }

  class UnoGame {
    const ledger: Ledger
    var deck: seq<Card>
    var playerHand: seq<Card>
    var opponentHand: seq<Card>
    var discardPile: seq<Card>
    var drawPile: seq<Card>
    var currentColor: Option<Color>
    var currentValue: Option<Value>
    var playerTurn: bool
    var gameState: GameState

    /** Between moves the working `deck` is empty, a discard is on the table
        and the current colour and value are those of the top discard. */
    ghost predicate Valid()
      reads this
    {
      && deck == []
      && discardPile != []
      && currentColor == Some(Last(discardPile).color)
      && currentValue == Some(Last(discardPile).value)
    }

    /** `n` pops went from `draw0` to one hand (the player's when
        `toPlayer`); the other hand is as it was. */
    ghost predicate Gave(n: nat, toPlayer: bool, draw0: seq<Card>, player0: seq<Card>, opponent0: seq<Card>)
      reads this`drawPile, this`playerHand, this`opponentHand
    {
      if toPlayer then (drawPile, playerHand) == Take(n, draw0, player0) && opponentHand == opponent0
      else (drawPile, opponentHand) == Take(n, draw0, opponent0) && playerHand == player0
    }

    /** The object literal, then `init`'s `setupGame`. */
    constructor (ledger: Ledger, picks: seq<nat>)
      requires ValidPicks(picks, 108)
      ensures this.ledger == ledger
      ensures Valid()
      ensures |playerHand| == 7 && |opponentHand| == 7 && |drawPile| == 93 && |discardPile| == 1
      ensures !IsWild(Last(discardPile))
      ensures IsStandardDeck(multiset(playerHand) + multiset(opponentHand) + multiset(discardPile) + multiset(drawPile))
      ensures playerTurn && gameState == Playing
    {
      this.ledger := ledger;
      deck := [];
      playerHand := [];
      opponentHand := [];
      discardPile := [];
      drawPile := [];
      currentColor := None;
      currentValue := None;
      playerTurn := true;
      gameState := Playing;
      new;
      SetupGame(picks);
    }

    /** `shuffleDeck`: the in-place Fisher–Yates loop over `deck`. */
    method ShuffleDeck(picks: seq<nat>)
      requires ValidPicks(picks, |deck|)
      modifies this`deck
      ensures deck == Shuffled(old(deck), picks)
      ensures multiset(deck) == multiset(old(deck))
    {
      var d := deck;
      var a := new Card[|d|](k requires 0 <= k < |d| => d[k]);
      assert a[..] == d;
      FisherYates(a, picks);
      deck := a[..];
      ShuffledPermutes(d, picks);
    }

    /** The first half of `setupGame`: the deck-building loops fill
        `deck`, which is then shuffled with `picks`. */
    method PrepareDeck(picks: seq<nat>)
      requires ValidPicks(picks, 108)
      modifies this`deck
      ensures |deck| == 108 && IsStandardDeck(multiset(deck))
    {
      deck := FreshDeck();
      ShuffleDeck(picks);
    }

    /** `setupGame`: build, shuffle and deal, push the first non-wild card
        onto the discard pile (which is never cleared), make the rest the
        draw pile, and give the player the turn. */
    method SetupGame(picks: seq<nat>)
      requires ValidPicks(picks, 108)
      modifies this`deck, this`playerHand, this`opponentHand, this`discardPile, this`drawPile
      modifies this`currentColor, this`currentValue, this`playerTurn, this`gameState
      ensures Valid()
      ensures |discardPile| == |old(discardPile)| + 1 && discardPile[..|old(discardPile)|] == old(discardPile)
      ensures |playerHand| == 7 && |opponentHand| == 7 && |drawPile| == 93
      ensures !IsWild(Last(discardPile))
      ensures IsStandardDeck(multiset(playerHand) + multiset(opponentHand) + multiset{Last(discardPile)} + multiset(drawPile))
      ensures playerTurn && gameState == Playing
    {
      PrepareDeck(picks);
      var first;
      first, playerHand, opponentHand, deck := DealAndTurnUp(deck);
      discardPile := discardPile + [first];
      currentColor := Some(first.color);
      currentValue := Some(first.value);
      drawPile := deck;
      deck := [];
      playerTurn := true;
      gameState := Playing;
    }

    /** `canPlayCard`, against the current colour and value. */
    function CanPlayCard(card: Card): (b: bool)
      reads this
      requires Valid()
      ensures b <==> IsWild(card) || card.color == Last(discardPile).color || card.value == Last(discardPile).value
    {
      PlayableAgainstTop(Last(discardPile), card);
      Playable(currentColor, currentValue, card)
    }

    /** The loop moving up to `n` cards from the draw pile to a hand, one
        `pop` at a time, skipping pops once the pile is empty. */
    method GiveCards(n: nat, toPlayer: bool)
      modifies this`drawPile, this`playerHand, this`opponentHand
      ensures Gave(n, toPlayer, old(drawPile), old(playerHand), old(opponentHand))
    {
      var pile, hand := PopInto(drawPile, if toPlayer then playerHand else opponentHand, n);
      drawPile := pile;
      if toPlayer {
        playerHand := hand;
      } else {
        opponentHand := hand;
      }
    }

    /** `handleActionCard`: a draw-two makes the OPPONENT take up to two
        cards, whoever played it; skip and reverse only show a message. */
    method HandleActionCard(card: Card)
      modifies this`drawPile, this`playerHand, this`opponentHand
      ensures Gave(if card.value == Draw2 then 2 else 0, false, old(drawPile), old(playerHand), old(opponentHand))
      ensures card.value != Draw2 ==>
        drawPile == old(drawPile) && playerHand == old(playerHand) && opponentHand == old(opponentHand)
    {
      if card.value == Draw2 {
        GiveCards(2, false);
      }
    }

    /** `endGame`. */
    method EndGame()
      modifies this`gameState
      ensures gameState == GameOver
    {
      gameState := GameOver;
    }

    /** `playCard`: a click on the card at `cardIndex`. Nothing happens off
        turn, after the game, for an index outside the hand or an
        unplayable card. A wild leaves the hand but never reaches the
        discard pile (a wild draw-four first gives the opponent up to four
        cards), and the turn stays with the player until a colour is
        chosen. Any other card goes on the discard pile and sets the current
        colour and value; an emptied hand ends the game and pays 50,
        otherwise the turn passes. */
    method PlayCard(cardIndex: int) returns (outcome: PlayOutcome)
      requires Valid()
      modifies this`playerHand, this`opponentHand, this`discardPile, this`drawPile
      modifies this`currentColor, this`currentValue, this`playerTurn, this`gameState, ledger`balance
      ensures Valid()
      ensures outcome == Ignored <==> !old(playerTurn) || old(gameState) != Playing || !(0 <= cardIndex < |old(playerHand)|)
      ensures outcome != Ignored ==>
        (outcome == NotPlayable <==> !Playable(old(currentColor), old(currentValue), old(playerHand)[cardIndex]))
      ensures outcome == Ignored || outcome == NotPlayable ==>
        && playerHand == old(playerHand) && opponentHand == old(opponentHand)
        && discardPile == old(discardPile) && drawPile == old(drawPile)
        && playerTurn == old(playerTurn) && gameState == old(gameState)
        && ledger.balance == old(ledger.balance)
      ensures outcome == WildPlayed ==>
        var card := old(playerHand)[cardIndex];
        && IsWild(card)
        && Gave(if card.value == Wild4 then 4 else 0, false, old(drawPile), Without(old(playerHand), cardIndex), old(opponentHand))
        && discardPile == old(discardPile)
        && playerTurn && gameState == Playing && ledger.balance == old(ledger.balance)
      ensures outcome == Played || outcome == PlayerWon ==>
        var card := old(playerHand)[cardIndex];
        && !IsWild(card)
        && Gave(if card.value == Draw2 then 2 else 0, false, old(drawPile), Without(old(playerHand), cardIndex), old(opponentHand))
        && discardPile == old(discardPile) + [card]
        && (outcome == PlayerWon <==> playerHand == [])
      ensures outcome == Played ==> !playerTurn && gameState == Playing && ledger.balance == old(ledger.balance)
      ensures outcome == PlayerWon ==> playerTurn && gameState == GameOver && ledger.balance == old(ledger.balance) + 50
    {
      if !playerTurn || gameState != Playing {
        return Ignored;
      }
      if !(0 <= cardIndex < |playerHand|) {
        return Ignored;
      }
      var card := playerHand[cardIndex];
      if !CanPlayCard(card) {
        return NotPlayable;
      }
      playerHand := Without(playerHand, cardIndex);
      if IsWild(card) {
        if card.value == Wild4 {
          GiveCards(4, false);
        }
        return WildPlayed;
      }
      outcome := PlaceCard(card);
    }

    /** The rest of `playCard` for a card that is not wild, already taken
        from the hand: it goes on the discard pile and becomes current, the
        action rule applies, and an emptied hand ends the game and pays 50;
        otherwise the turn passes. */
    method PlaceCard(card: Card) returns (outcome: PlayOutcome)
      requires gameState == Playing
      modifies this`playerHand, this`opponentHand, this`discardPile, this`drawPile
      modifies this`currentColor, this`currentValue, this`playerTurn, this`gameState, ledger`balance
      ensures outcome == Played || outcome == PlayerWon
      ensures Gave(if card.value == Draw2 then 2 else 0, false, old(drawPile), old(playerHand), old(opponentHand))
      ensures discardPile == old(discardPile) + [card]
      ensures currentColor == Some(card.color) && currentValue == Some(card.value)
      ensures outcome == PlayerWon <==> playerHand == []
      ensures outcome == Played ==> !playerTurn && gameState == Playing && ledger.balance == old(ledger.balance)
      ensures outcome == PlayerWon ==> playerTurn == old(playerTurn) && gameState == GameOver && ledger.balance == old(ledger.balance) + 50
    {
      discardPile := discardPile + [card];
      currentColor := Some(card.color);
      currentValue := Some(card.value);
      HandleActionCard(card);
      if playerHand == [] {
        EndGame();
        ledger.AddBalance(50);
        return PlayerWon;
      }
      playerTurn := false;
      outcome := Played;
    }

    /** `selectWildColor`: the chosen colour is painted on the top discard
        (the card the player's wild was played on, since the wild itself is
        not on the pile) and becomes current; the turn passes. */
    method SelectWildColor(color: Color)
      requires Valid()
      modifies this`discardPile, this`currentColor, this`playerTurn
      ensures Valid()
      ensures |discardPile| == |old(discardPile)| && discardPile[..|discardPile| - 1] == old(discardPile)[..|discardPile| - 1]
      ensures Last(discardPile) == Card(color, Last(old(discardPile)).value)
      ensures currentColor == Some(color) && !playerTurn
    {
      var top := discardPile[|discardPile| - 1];
      discardPile := discardPile[..|discardPile| - 1] + [Card(color, top.value)];
      currentColor := Some(color);
      playerTurn := false;
    }

    /** The refill when the draw pile is empty: the top discard stays, the
        rest becomes the draw pile in the same order, and `shuffleDeck`
        shuffles the (empty) `deck`. */
    method Replenish()
      requires Valid() && drawPile == []
      modifies this`discardPile, this`drawPile, this`deck
      ensures Valid()
      ensures discardPile == [Last(old(discardPile))]
      ensures drawPile == DrawSource(old(drawPile), old(discardPile))
    {
      var top := discardPile[|discardPile| - 1];
      discardPile := discardPile[..|discardPile| - 1];
      drawPile := discardPile;
      ShuffleDeck([]);
      discardPile := [top];
    }

    /** A draw of one card into a hand, refilling the draw pile first when
        it is empty. */
    method DrawOne(toPlayer: bool)
      requires Valid()
      modifies this`discardPile, this`drawPile, this`deck, this`playerHand, this`opponentHand
      ensures Valid()
      ensures discardPile == if old(drawPile) != [] then old(discardPile) else [Last(old(discardPile))]
      ensures Gave(1, toPlayer, DrawSource(old(drawPile), old(discardPile)), old(playerHand), old(opponentHand))
    {
      if drawPile == [] {
        Replenish();
      }
      GiveCards(1, toPlayer);
    }

    /** `drawCard`: ignored off turn or after the game; otherwise one card
        (if any is left) moves to the player's hand and the turn passes. */
    method DrawCard()
      requires Valid()
      modifies this`discardPile, this`drawPile, this`deck, this`playerHand, this`opponentHand, this`playerTurn
      ensures Valid()
      ensures !old(playerTurn) || gameState != Playing ==>
        && discardPile == old(discardPile) && drawPile == old(drawPile)
        && playerHand == old(playerHand) && opponentHand == old(opponentHand) && playerTurn == old(playerTurn)
      ensures old(playerTurn) && gameState == Playing ==>
        && discardPile == (if old(drawPile) != [] then old(discardPile) else [Last(old(discardPile))])
        && Gave(1, true, DrawSource(old(drawPile), old(discardPile)), old(playerHand), old(opponentHand))
        && !playerTurn
    {
      if !playerTurn || gameState != Playing {
        return;
      }
      DrawOne(true);
      playerTurn := false;
    }

    /** The search loop of `opponentTurn`: the first playable card of the
        bot's hand, or -1. */
    method FindPlayable() returns (index: int)
      ensures index == FirstPlayable(currentColor, currentValue, opponentHand, 0)
    {
      index := -1;
      var i := 0;
      while i < |opponentHand|
        invariant 0 <= i <= |opponentHand|
        invariant FirstPlayable(currentColor, currentValue, opponentHand, i) == FirstPlayable(currentColor, currentValue, opponentHand, 0)
      {
        if Playable(currentColor, currentValue, opponentHand[i]) {
          return i;
        }
        i := i + 1;
      }
    }

    /** The effects of the card the bot just played: a wild draw-four
        gives the player up to four cards, the card becomes current, and the
        action rule applies (a draw-two gives the bot itself up to two). */
    method ApplyOpponentCard(card: Card)
      modifies this`drawPile, this`playerHand, this`opponentHand, this`currentColor, this`currentValue
      ensures Gave(Penalty(card.value), card.value == Wild4, old(drawPile), old(playerHand), old(opponentHand))
      ensures currentColor == Some(card.color) && currentValue == Some(card.value)
    {
      if card.value == Wild4 {
        GiveCards(4, true);
      }
      currentColor := Some(card.color);
      currentValue := Some(card.value);
      HandleActionCard(card);
    }

    /** The branch of `opponentTurn` where the bot holds a playable card
        at `i`: it leaves the hand (a wild painted with the colour at
        `colorPick`) and goes on the discard pile, a wild draw-four gives
        the player up to four cards, the card becomes current and the
        action rule applies. */
    method PlayOpponentCard(i: nat, colorPick: nat) returns (card: Card)
      requires Valid() && i < |opponentHand| && colorPick < 4
      modifies this`discardPile, this`drawPile, this`playerHand, this`opponentHand
      modifies this`currentColor, this`currentValue
      ensures Valid()
      ensures card == Recolored(old(opponentHand)[i], colorPick)
      ensures discardPile == old(discardPile) + [card]
      ensures Gave(Penalty(card.value), card.value == Wild4, old(drawPile), old(playerHand), Without(old(opponentHand), i))
      ensures currentColor == Some(card.color) && currentValue == Some(card.value)
    {
      card := Recolored(opponentHand[i], colorPick);
      opponentHand := Without(opponentHand, i);
      discardPile := discardPile + [card];
      ApplyOpponentCard(card);
    }

    /** The end of `opponentTurn` after the bot played `card`: with its
        hand empty the bot has won, the game ends and the turn is not handed
        back; otherwise the turn goes back to the player. */
    method FinishOpponentPlay(card: Card) returns (move: OpponentMove)
      modifies this`gameState, this`playerTurn
      ensures move == (if opponentHand == [] then OpponentWon(card) else OpponentPlayed(card))
      ensures move.OpponentWon? ==> gameState == GameOver && playerTurn == old(playerTurn)
      ensures move.OpponentPlayed? ==> gameState == old(gameState) && playerTurn
    {
      if opponentHand == [] {
        EndGame();
        return OpponentWon(card);
      }
      move := OpponentPlayed(card);
      playerTurn := true;
    }

    /** The branch of `opponentTurn` where the bot has nothing to play:
        it draws at most one card (refilling an empty draw pile first) and the turn
        goes back to the player. */
    method OpponentDraws()
      requires Valid()
      modifies this`discardPile, this`drawPile, this`deck, this`playerHand, this`opponentHand, this`playerTurn
      ensures Valid()
      ensures discardPile == if old(drawPile) != [] then old(discardPile) else [Last(old(discardPile))]
      ensures Gave(1, false, DrawSource(old(drawPile), old(discardPile)), old(playerHand), old(opponentHand))
      ensures playerTurn
    {
      DrawOne(false);
      playerTurn := true;
    }

    /** `opponentTurn`: the bot plays its first playable card, a wild
        painted with the colour at `colorPick` (a wild draw-four also gives
        the player up to four cards), applies the action rule and wins on
        an empty hand, keeping the turn; with nothing playable it draws
        at most one card. Unless it won, the turn goes back to the player. */
    method OpponentTurn(colorPick: nat) returns (move: OpponentMove)
      requires Valid() && colorPick < 4
      modifies this`discardPile, this`drawPile, this`deck, this`playerHand, this`opponentHand
      modifies this`currentColor, this`currentValue, this`playerTurn, this`gameState
      ensures Valid()
      ensures move == Idle <==> old(gameState) != Playing
      ensures move == Idle ==>
        && discardPile == old(discardPile) && drawPile == old(drawPile)
        && playerHand == old(playerHand) && opponentHand == old(opponentHand)
        && playerTurn == old(playerTurn) && gameState == old(gameState)
      ensures move != Idle ==>
        var i := FirstPlayable(old(currentColor), old(currentValue), old(opponentHand), 0);
        && (move == OpponentDrew <==> i == -1)
        && (i == -1 ==>
              && discardPile == (if old(drawPile) != [] then old(discardPile) else [Last(old(discardPile))])
              && Gave(1, false, DrawSource(old(drawPile), old(discardPile)), old(playerHand), old(opponentHand))
              && playerTurn && gameState == Playing)
        && (i != -1 ==>
              && move.card == Recolored(old(opponentHand)[i], colorPick)
              && discardPile == old(discardPile) + [move.card]
              && AfterOpponentPlay(move, Without(old(opponentHand), i), old(drawPile), old(playerHand))
              && (move.OpponentWon? ==> playerTurn == old(playerTurn)))
    {
      if gameState != Playing {
        return Idle;
      }
      var i := FindPlayable();
      if i >= 0 {
        var card := PlayOpponentCard(i, colorPick);
        move := FinishOpponentPlay(card);
      } else {
        OpponentDraws();
        move := OpponentDrew;
      }
    }

    /** The state after the bot played `move.card`: the penalty its face
        carries has been dealt from `draw0` (four to the player for a wild
        draw-four, two to the bot itself for a draw-two), the card is
        current, and a bot left without cards has won and kept the turn. */
    ghost predicate AfterOpponentPlay(move: OpponentMove, opponent0: seq<Card>, draw0: seq<Card>, player0: seq<Card>)
      reads this`drawPile, this`playerHand, this`opponentHand, this`currentColor, this`currentValue
      reads this`gameState, this`playerTurn
      requires !move.Idle? && !move.OpponentDrew?
    {
      var v := move.card.value;
      && Gave(Penalty(v), v == Wild4, draw0, player0, opponent0)
      && currentColor == Some(move.card.color) && currentValue == Some(v)
      && (move.OpponentWon? <==> opponentHand == [])
      && (move.OpponentWon? ==> gameState == GameOver)
      && (move.OpponentPlayed? ==> gameState == Playing && playerTurn)
    }
  }
}
