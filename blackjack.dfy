/** Blackjack: a freshly shuffled 52-card deck per round, the hand-value
    rule with aces demoted from 11 to 1, the round phases
    betting -> playing -> dealer -> finished, the dealer's draw-below-17
    rule and the win / push / loss settlement against the shared ledger. */
module Blackjack {
  import opened GameManager
  import opened Piles

  datatype Suit = Spades | Hearts | Diamonds | Clubs
  /** A card's face value, numbered by its place in the list
      `A, 2, ..., 10, J, Q, K` that `createDeck` walks: the ace is 1, the
      number cards are their own number, the jack, queen and king 11 to 13. */
  type Rank = r: int | 1 <= r <= 13 witness 1
  const Ace: Rank := 1
  const Jack: Rank := 11
  const Queen: Rank := 12
  const King: Rank := 13
  datatype CardColor = Red | Black
  datatype Card = Card(suit: Suit, value: Rank, color: CardColor)
  datatype Phase = Betting | Playing | DealerTurn | Finished

  /** What `deal` did: nothing outside the betting phase, an
      insufficient-balance message, or a new round. */
  datatype DealResult = Ignored | InsufficientBalance | Dealt

  const Suits: seq<Suit> := [Spades, Hearts, Diamonds, Clubs]
  const Ranks: seq<Rank> := [1, 2, 3, 4, 5, 6, 7, 8, 9, 10, 11, 12, 13]

  /** Hearts and diamonds are red, spades and clubs black. */
  function SuitColor(s: Suit): CardColor
  {
    if s == Hearts || s == Diamonds then Red else Black
  }

  // ---------------------------------------------------------------------
  // Deck construction

  function SuitIndex(s: Suit): (i: nat)
    ensures i < 4 && Suits[i] == s
  {
    match s
    case Spades => 0
    case Hearts => 1
    case Diamonds => 2
    case Clubs => 3
  }

  /** The values list holds each face value at its number minus one. */
  lemma RanksInOrder()
    ensures |Ranks| == 13 && forall i :: 0 <= i < 13 ==> Ranks[i] == i + 1
  {
  }

  function CardAt(k: nat): Card
    requires k < 52
  {
    var s := Suits[k / 13];
    Card(s, k % 13 + 1, SuitColor(s))
  }

  function OrderedDeck(): (deck: seq<Card>)
    ensures |deck| == 52
  {
    seq(52, k requires 0 <= k < 52 => CardAt(k))
  }

  /** A sequence without repeats holds each of its elements once. */
  lemma {:induction false} DistinctCount<T>(s: seq<T>, x: T)
    requires forall i, j :: 0 <= i < j < |s| ==> s[i] != s[j]
    ensures multiset(s)[x] == if x in s then 1 else 0
  {
    if s != [] {
      DistinctCount(s[1..], x);
      assert s == [s[0]] + s[1..];
    }
  }

  lemma CardAtInjective(i: nat, j: nat)
    requires i < 52 && j < 52 && CardAt(i) == CardAt(j)
    ensures i == j
  {
    assert forall a, b :: 0 <= a < b < 4 ==> Suits[a] != Suits[b];
    assert i / 13 == j / 13;
    assert i % 13 == j % 13;
  }

  lemma CardAtIndex(c: Card)
    requires c.color == SuitColor(c.suit)
    ensures var k := 13 * SuitIndex(c.suit) + c.value - 1; k < 52 && CardAt(k) == c
  {
    var q, r := SuitIndex(c.suit), c.value - 1;
    var k := 13 * q + r;
    assert k / 13 == q && k % 13 == r;
  }

  /** How often a full deck holds `c`: once if its colour matches its suit. */
  function FullCount(c: Card): nat
  {
    if c.color == SuitColor(c.suit) then 1 else 0
  }

  /** A full deck: every card whose colour matches its suit exactly once, and nothing else. */
  ghost predicate IsFullDeck(m: multiset<Card>)
  {
    forall c {:trigger FullCount(c)} :: m[c] == FullCount(c)
  }

  /** The deck `createDeck` builds before shuffling is a full deck. */
  lemma OrderedDeckComposition()
    ensures IsFullDeck(multiset(OrderedDeck()))
  {
    var d := OrderedDeck();
    forall i, j | 0 <= i < j < |d| ensures d[i] != d[j] {
      if d[i] == d[j] { CardAtInjective(i, j); }
    }
    forall c ensures multiset(d)[c] == FullCount(c) {
      DistinctCount(d, c);
      if c.color == SuitColor(c.suit) {
        CardAtIndex(c);
        assert d[13 * SuitIndex(c.suit) + c.value - 1] == c;
      }
    }
  }

  /** Any full deck has the 52 cards of the ordered deck. */
  lemma FullDeckSize(m: multiset<Card>)
    requires IsFullDeck(m)
    ensures |m| == 52
  {
    OrderedDeckComposition();
    forall c
      ensures m[c] == multiset(OrderedDeck())[c]
    {
      assert m[c] == FullCount(c);
    }
    assert m == multiset(OrderedDeck());
  }

  method PushAllCards() returns (built: seq<Card>)
    ensures built == OrderedDeck()
  {
    built := [];
    RanksInOrder();
    for si := 0 to |Suits|
      invariant |built| == 13 * si
      invariant forall k :: 0 <= k < |built| ==> built[k] == CardAt(k)
    {
      var suit := Suits[si];
      for vi := 0 to |Ranks|
        invariant |built| == 13 * si + vi
        invariant forall k :: 0 <= k < |built| ==> built[k] == CardAt(k)
      {
        var color := if suit == Hearts || suit == Diamonds then Red else Black;
        assert (13 * si + vi) / 13 == si && (13 * si + vi) % 13 == vi;
        built := built + [Card(suit, Ranks[vi], color)];
      }
    }
  }

  /** `createDeck`: push the 52 cards, then shuffle them in place with the given picks. */
  method CreateDeck(picks: seq<nat>) returns (deck: seq<Card>)
    requires ValidPicks(picks, 52)
    ensures deck == Shuffled(OrderedDeck(), picks)
    ensures |deck| == 52 && IsFullDeck(multiset(deck))
  {
    var built := PushAllCards();
    var a := new Card[|built|](k requires 0 <= k < |built| => built[k]);
    assert a[..] == built;
    FisherYates(a, picks);
    deck := a[..];
    ShuffledPermutes(built, picks);
    OrderedDeckComposition();
  }

  // ---------------------------------------------------------------------
  // Hand value

  /** The points of a rank with an ace counted as 11. */
  function Points(r: Rank): nat
  {
    if r == Ace then 11 else if r >= Jack then 10 else r
  }

  /** The points of a rank with an ace counted as 1. */
  function HardPoints(r: Rank): nat
  {
    if r == Ace then 1 else Points(r)
  }

  /** The total of the first `n` cards with every ace counted as 11 (the
      counting loop's `value` after `n` cards). */
  function SoftTotal(cards: seq<Card>, n: nat): nat
    requires n <= |cards|
  {
    if n == 0 then 0 else SoftTotal(cards, n - 1) + Points(cards[n - 1].value)
  }

  /** The number of aces among the first `n` cards. */
  function AceCount(cards: seq<Card>, n: nat): nat
    requires n <= |cards|
  {
    if n == 0 then 0 else AceCount(cards, n - 1) + (if cards[n - 1].value == Ace then 1 else 0)
  }

  /** The total of the first `n` cards with every ace counted as 1. */
  function HardTotal(cards: seq<Card>, n: nat): nat
    requires n <= |cards|
  {
    if n == 0 then 0 else HardTotal(cards, n - 1) + HardPoints(cards[n - 1].value)
  }

  /** The demotion loop: take 10 off per ace while the total is over 21. */
  function Demote(value: int, aces: nat): int
    decreases aces
  {
    if value > 21 && aces > 0 then Demote(value - 10, aces - 1) else value
  }

  /** The blackjack total of a hand: every ace counts 1, and one ace
      counts 11 instead when the hand has an ace and that keeps the total
      at most 21. */
  function HandValue(cards: seq<Card>): int
  {
    var hard := HardTotal(cards, |cards|);
    if AceCount(cards, |cards|) > 0 && hard + 10 <= 21 then hard + 10 else hard
  }

  /** The total when `k` aces are counted as 11 and the rest as 1. */
  function WithSoftAces(hard: int, k: nat): int
  {
    hard + 10 * k
  }

  lemma {:induction false} SoftIsHardPlusTen(cards: seq<Card>, n: nat)
    requires n <= |cards|
    ensures SoftTotal(cards, n) == WithSoftAces(HardTotal(cards, n), AceCount(cards, n))
    ensures AceCount(cards, n) <= HardTotal(cards, n)
    ensures n <= HardTotal(cards, n) <= 10 * n
  {
    if n > 0 {
      SoftIsHardPlusTen(cards, n - 1);
    }
  }

  /** Demoting from the all-elevens total stops at the blackjack total,
      given that every ace contributes at least its 1 to `hard`. */
  lemma {:induction false} DemoteFromSoft(hard: int, aces: nat)
    requires aces <= hard
    ensures Demote(WithSoftAces(hard, aces), aces) == if aces > 0 && hard + 10 <= 21 then hard + 10 else hard
    decreases aces
  {
    if aces > 0 && WithSoftAces(hard, aces) > 21 {
      assert WithSoftAces(hard, aces) - 10 == WithSoftAces(hard, aces - 1);
      DemoteFromSoft(hard, aces - 1);
    }
  }

  /** The two loops of `calculateHandValue` (count every ace as 11, then
      take 10 off per ace while over 21) compute the blackjack total. */
  lemma DemotionIsHandValue(cards: seq<Card>)
    ensures Demote(SoftTotal(cards, |cards|), AceCount(cards, |cards|)) == HandValue(cards)
  {
    SoftIsHardPlusTen(cards, |cards|);
    DemoteFromSoft(HardTotal(cards, |cards|), AceCount(cards, |cards|));
  }

  /** The hand value is the largest total at most 21 obtainable by counting
      some of the aces as 11 and the rest as 1, and the all-ones total when
      there is none; it is the all-ones total or ten more. */
  lemma HandValueIsBest(cards: seq<Card>)
    ensures var hard, aces, r := HardTotal(cards, |cards|), AceCount(cards, |cards|), HandValue(cards);
      && (r == hard || (r == hard + 10 && aces > 0))
      && (r > 21 ==> r == hard)
      && forall k :: 0 <= k <= aces && WithSoftAces(hard, k) <= 21 ==> WithSoftAces(hard, k) <= r
  {
    SoftIsHardPlusTen(cards, |cards|);
  }

  /** A hand scores at least one point per card, and a hand whose aces-as-one
      total is at most 21 is not bust; in particular no two-card hand is. */
  lemma HandValueBounds(cards: seq<Card>)
    ensures |cards| <= HandValue(cards)
    ensures HardTotal(cards, |cards|) <= 21 ==> HandValue(cards) <= 21
    ensures |cards| <= 2 ==> HandValue(cards) <= 21
  {
    SoftIsHardPlusTen(cards, |cards|);
  }

  /** No two-card hand is bust. */
  lemma TwoCardsNotBust(a: Card, b: Card)
    ensures HandValue([a, b]) <= 21
  {
    HandValueBounds([a, b]);
  }

  /** `calculateHandValue`: a counting loop, then the demotion loop. */
  method CalculateHandValue(cards: seq<Card>) returns (value: int)
    ensures value == HandValue(cards)
  {
    value := 0;
    var aces: nat := 0;
    for i := 0 to |cards|
      invariant value == SoftTotal(cards, i) && aces == AceCount(cards, i)
    {
      var card := cards[i];
      if card.value == Ace {
        aces := aces + 1;
        value := value + 11;
      } else if card.value in {Jack, Queen, King} {
        value := value + 10;
      } else {
        value := value + card.value;
      }
    }
    DemotionIsHandValue(cards);
    while value > 21 && aces > 0
      invariant Demote(value, aces) == HandValue(cards)
      decreases aces
    {
      value := value - 10;
      aces := aces - 1;
    }
  }

  // ---------------------------------------------------------------------
  // Settlement

  /** What `checkWinner` credits: twice the bet when the dealer busts or the
      player is higher, the bet back on a tie, nothing on a loss or a bust. */
  function Settlement(playerScore: int, dealerScore: int, bet: int): (credit: int)
    ensures credit == 0 || credit == bet || credit == 2 * bet
    ensures playerScore > 21 ==> credit == 0
  {
    if playerScore > 21 then 0
    else if dealerScore > 21 then 2 * bet
    else if playerScore > dealerScore then 2 * bet
    else if playerScore < dealerScore then 0
    else bet
  }

  /** Against the stake deducted at the deal, a round nets +bet, 0 or -bet:
      +bet exactly when the player stands at most 21 and the dealer busts or is
      beaten, 0 exactly on a tie without a bust. */
  lemma SettlementNet(playerScore: int, dealerScore: int, bet: int)
    requires bet > 0
    ensures var net := Settlement(playerScore, dealerScore, bet) - bet;
      && (net == bet || net == 0 || net == -bet)
      && (net == bet <==> playerScore <= 21 && (dealerScore > 21 || playerScore > dealerScore))
      && (net == 0 <==> playerScore <= 21 && dealerScore <= 21 && playerScore == dealerScore)
  {
  }

  /** A higher player score (still at most 21) never settles for less. */
  lemma SettlementMonotone(p1: int, p2: int, dealerScore: int, bet: int)
    requires p1 <= p2 <= 21 && bet >= 0
    ensures Settlement(p1, dealerScore, bet) <= Settlement(p2, dealerScore, bet)
  {
  }

  /** Dealing the top four cards of `d` (the top two to the player, the
      next two to the dealer) neither adds nor loses a card, and the rest of
      the deck lies below them. */
  lemma DealCount(d: seq<Card>)
    requires |d| >= 4
    ensures var n := |d|;
      && d[..n - 4] + [d[n - 4], d[n - 3], d[n - 2], d[n - 1]] == d
      && multiset(d[..n - 4]) + multiset([d[n - 1], d[n - 2]]) + multiset([d[n - 3], d[n - 4]]) == multiset(d)
  {
    var n := |d|;
    assert d == d[..n - 4] + [d[n - 4], d[n - 3], d[n - 2], d[n - 1]];
  }

  /** What a run of dealer draws has done, measured from the deck
      `startDeck` and hand `startHand` it began with: the hand only grew,
      the new cards are the top of the start deck in the order they were
      popped, and each was drawn while the hand before it was below 17. */
  ghost predicate DrewFrom(deck: seq<Card>, hand: seq<Card>, startDeck: seq<Card>, startHand: seq<Card>)
  {
    && |startHand| <= |hand| && hand[..|startHand|] == startHand
    && deck + Reversed(hand[|startHand|..]) == startDeck
    && forall j :: |startHand| <= j < |hand| ==> HandValue(hand[..j]) < 17
  }

  /** Nothing drawn yet. */
  lemma DrewNothing(deck: seq<Card>, hand: seq<Card>)
    ensures DrewFrom(deck, hand, deck, hand)
  {
    assert hand[..|hand|] == hand && hand[|hand|..] == [];
  }

  /** One more pop from the pile into a hand whose value is below 17 extends
      the run of draws. */
  lemma DrawExtends(rest: seq<Card>, hand: seq<Card>, startDeck: seq<Card>, startHand: seq<Card>)
    requires DrewFrom(rest, hand, startDeck, startHand) && HandValue(hand) < 17 && |rest| > 0
    ensures DrewFrom(rest[..|rest| - 1], hand + [rest[|rest| - 1]], startDeck, startHand)
  {
    var card, deck, after := rest[|rest| - 1], rest[..|rest| - 1], hand + [rest[|rest| - 1]];
    var n := |startHand|;
    assert after[..n] == hand[..n];
    assert after[n..] == hand[n..] + [card];
    ReversedSnoc(hand[n..], card);
    assert rest == deck + [card];
    forall j | n <= j < |after|
      ensures HandValue(after[..j]) < 17
    {
      if j < |hand| {
        assert after[..j] == hand[..j];
      } else {
        assert after[..j] == hand;
      }
    }
  }

  /** Dealing the top four cards of a full deck (the top two to the player,
      the next two to the dealer) leaves a full set of cards between the deck
      and the two hands, with the rest of the deck below the dealt cards,
      and the player's two cards are not bust. */
  lemma DealKeepsFull(d: seq<Card>, deck: seq<Card>, player: seq<Card>, dealer: seq<Card>)
    requires |d| == 52 && IsFullDeck(multiset(d))
    requires player == [d[51], d[50]] && dealer == [d[49], d[48]] && deck == d[..48]
    ensures IsFullDeck(multiset(deck) + multiset(player) + multiset(dealer))
    ensures HandValue(player) <= 21
  {
    DealCount(d);
    TwoCardsNotBust(d[51], d[50]);
  }

  /** The hands of a full set of cards hold fewer than 52 of them only
      when some are still in the deck. */
  lemma DeckNotEmpty(deck: seq<Card>, player: seq<Card>, dealer: seq<Card>)
    requires IsFullDeck(multiset(deck) + multiset(player) + multiset(dealer))
    requires |player| + |dealer| < 52
    ensures |deck| > 0
  {
    FullDeckSize(multiset(deck) + multiset(player) + multiset(dealer));
  }

  /** Moving `card` from the deck to the player's hand keeps the full set. */
  lemma PlayerTakeKeepsFull(deck0: seq<Card>, player0: seq<Card>, dealer: seq<Card>,
                            deck: seq<Card>, player: seq<Card>, card: Card)
    requires IsFullDeck(multiset(deck0) + multiset(player0) + multiset(dealer))
    requires deck0 == deck + [card] && player == player0 + [card]
    ensures IsFullDeck(multiset(deck) + multiset(player) + multiset(dealer))
  {
    assert multiset(deck) + multiset(player) + multiset(dealer)
        == multiset(deck0) + multiset(player0) + multiset(dealer);
  }

  /** One pass of the dealer's loop below 17: moving `card` from the top of
      the deck to the dealer's hand keeps the full set and extends the run
      of draws. */
  lemma DealerTakeKeepsFull(deck0: seq<Card>, player: seq<Card>, dealer0: seq<Card>,
                            deck: seq<Card>, dealer: seq<Card>, card: Card,
                            startDeck: seq<Card>, startHand: seq<Card>)
    requires IsFullDeck(multiset(deck0) + multiset(player) + multiset(dealer0))
    requires DrewFrom(deck0, dealer0, startDeck, startHand) && HandValue(dealer0) < 17
    requires deck0 == deck + [card] && dealer == dealer0 + [card]
    ensures IsFullDeck(multiset(deck) + multiset(player) + multiset(dealer))
    ensures DrewFrom(deck, dealer, startDeck, startHand)
  {
    assert multiset(deck) + multiset(player) + multiset(dealer)
        == multiset(deck0) + multiset(player) + multiset(dealer0);
    assert deck0[..|deck0| - 1] == deck && deck0[|deck0| - 1] == card;
    DrawExtends(deck0, dealer0, startDeck, startHand);
  }

  // ---------------------------------------------------------------------
  // The game object

  class BlackjackGame {
    const ledger: Ledger
    var currentBet: int
    var deck: seq<Card>
    var playerCards: seq<Card>
    var dealerCards: seq<Card>
    var playerScore: int
    var dealerScore: int
    var gameState: Phase

    /** Scores always match the hands; once a round is dealt no card is
        added or lost; while playing, the dealer holds two cards and the
        player is not bust. */
    ghost predicate Valid()
      reads this
    {
      && playerScore == HandValue(playerCards)
      && dealerScore == HandValue(dealerCards)
      && (gameState != Betting ==> IsFullDeck(multiset(deck) + multiset(playerCards) + multiset(dealerCards)))
      && (gameState == Playing ==> |dealerCards| == 2 && playerScore <= 21)
    }

    constructor (ledger: Ledger)
      ensures Valid() && this.ledger == ledger
      ensures currentBet == 10 && deck == [] && playerCards == [] && dealerCards == []
      ensures gameState == Betting
    {
      this.ledger := ledger;
      currentBet := 10;
      deck := [];
      playerCards := [];
      dealerCards := [];
      playerScore := 0;
      dealerScore := 0;
      gameState := Betting;
    }

    /** `resetGame`: empty hands, zero scores, back to betting; the old deck stays. */
    method ResetGame()
      modifies this
      ensures Valid()
      ensures playerCards == [] && dealerCards == [] && playerScore == 0 && dealerScore == 0
      ensures gameState == Betting
      ensures deck == old(deck) && currentBet == old(currentBet)
    {
      playerCards := [];
      dealerCards := [];
      playerScore := 0;
      dealerScore := 0;
      gameState := Betting;
    }

    /** A bet button: the amount is taken only when the balance covers it. */
    method SelectBet(bet: int) returns (accepted: bool)
      modifies this`currentBet
      ensures accepted <==> bet <= ledger.balance
      ensures currentBet == if accepted then bet else old(currentBet)
    {
      var balance := ledger.GetBalance();
      accepted := bet <= balance;
      if accepted {
        currentBet := bet;
      }
    }

    /** `drawCard`: pop the top (last) card of the deck. */
    method DrawCard() returns (card: Card)
      requires |deck| > 0
      modifies this`deck
      ensures card == old(deck)[|old(deck)| - 1]
      ensures deck == old(deck)[..|old(deck)| - 1]
    {
      card := deck[|deck| - 1];
      deck := deck[..|deck| - 1];
    }

    method CalculateScores()
      modifies this`playerScore, this`dealerScore
      ensures playerScore == HandValue(playerCards) && dealerScore == HandValue(dealerCards)
    {
      playerScore := CalculateHandValue(playerCards);
      dealerScore := CalculateHandValue(dealerCards);
    }

    /** `deal`: only in the betting phase and only when the balance covers
        the bet; then the bet is deducted and each side gets two cards popped
        from a fresh shuffled deck: the player the top two, the dealer the
        next two. */
    method Deal(picks: seq<nat>) returns (result: DealResult)
      requires Valid() && ValidPicks(picks, 52)
      modifies this`deck, this`playerCards, this`dealerCards, this`gameState, this`playerScore, this`dealerScore
      modifies ledger`balance
      ensures Valid()
      ensures result == if old(gameState) != Betting then Ignored
                        else if currentBet > old(ledger.balance) then InsufficientBalance
                        else Dealt
      ensures result != Dealt ==> unchanged(this) && ledger.balance == old(ledger.balance)
      ensures result == Dealt ==>
        && ledger.balance == old(ledger.balance) - currentBet
        && gameState == Playing
        && var shuffled := Shuffled(OrderedDeck(), picks);
           && |shuffled| == 52
           && playerCards == [shuffled[51], shuffled[50]] && dealerCards == [shuffled[49], shuffled[48]]
           && deck == shuffled[..48]
    {
      if gameState != Betting {
        return Ignored;
      }
      var balance := ledger.GetBalance();
      if currentBet > balance {
        return InsufficientBalance;
      }
      StartRound(picks);
      result := Dealt;
    }

    /** A `deal` the bet is covered for: deduct the bet, build a shuffled deck
        and deal from it. */
    method StartRound(picks: seq<nat>)
      requires ValidPicks(picks, 52) && currentBet <= ledger.balance
      modifies this`deck, this`playerCards, this`dealerCards, this`gameState, this`playerScore, this`dealerScore
      modifies ledger`balance
      ensures Valid()
      ensures ledger.balance == old(ledger.balance) - currentBet
      ensures gameState == Playing
      ensures var shuffled := Shuffled(OrderedDeck(), picks);
        && |shuffled| == 52
        && playerCards == [shuffled[51], shuffled[50]] && dealerCards == [shuffled[49], shuffled[48]]
        && deck == shuffled[..48]
    {
      var _ := ledger.DeductBalance(currentBet);
      deck := CreateDeck(picks);
      DealHands();
    }

    /** The four pops of `deal`: the player takes the top two cards, the
        dealer the next two. */
    method DealFour()
      requires |deck| >= 4
      modifies this`deck, this`playerCards, this`dealerCards
      ensures playerCards == [old(deck)[|old(deck)| - 1], old(deck)[|old(deck)| - 2]]
      ensures dealerCards == [old(deck)[|old(deck)| - 3], old(deck)[|old(deck)| - 4]]
      ensures deck == old(deck)[..|old(deck)| - 4]
    {
      var p1 := DrawCard();
      var p2 := DrawCard();
      playerCards := [p1, p2];
      var d1 := DrawCard();
      var d2 := DrawCard();
      dealerCards := [d1, d2];
    }

    /** The dealing steps of `deal` on a full deck: two pops for the player,
        two for the dealer, then the scores; play begins. */
    method DealHands()
      requires |deck| == 52 && IsFullDeck(multiset(deck))
      modifies this`deck, this`playerCards, this`dealerCards, this`gameState, this`playerScore, this`dealerScore
      ensures Valid() && gameState == Playing
      ensures playerCards == [old(deck)[51], old(deck)[50]] && dealerCards == [old(deck)[49], old(deck)[48]]
      ensures deck == old(deck)[..48]
    {
      ghost var d := deck;
      DealFour();
      DealKeepsFull(d, deck, playerCards, dealerCards);
      gameState := Playing;
      CalculateScores();
    }

    /** `hit`: only while playing; one card from the top of the deck joins the
        player's hand, and the round ends (without payout) exactly on a bust. */
    method Hit()
      requires Valid()
      modifies this`deck, this`playerCards, this`playerScore, this`dealerScore, this`gameState
      ensures Valid()
      ensures old(gameState) != Playing ==> unchanged(this)
      ensures old(gameState) == Playing ==>
        && |old(deck)| > 0
        && playerCards == old(playerCards) + [old(deck)[|old(deck)| - 1]]
        && deck == old(deck)[..|old(deck)| - 1]
        && dealerCards == old(dealerCards)
        && gameState == (if HandValue(playerCards) > 21 then Finished else Playing)
      ensures currentBet == old(currentBet)
    {
      if gameState != Playing {
        return;
      }
      PlayerDraws();
      if playerScore > 21 {
        gameState := Finished;
      }
    }

    /** The body of `hit` in play: pop the top card into the player's hand
        and rescore. */
    method PlayerDraws()
      requires Valid() && gameState == Playing
      modifies this`deck, this`playerCards, this`playerScore, this`dealerScore
      ensures |old(deck)| > 0
      ensures playerCards == old(playerCards) + [old(deck)[|old(deck)| - 1]]
      ensures deck == old(deck)[..|old(deck)| - 1]
      ensures IsFullDeck(multiset(deck) + multiset(playerCards) + multiset(dealerCards))
      ensures playerScore == HandValue(playerCards) && dealerScore == HandValue(dealerCards)
    {
      HandValueBounds(playerCards);
      DeckNotEmpty(deck, playerCards, dealerCards);
      var card := DrawCard();
      playerCards := playerCards + [card];
      assert old(deck) == deck + [card];
      PlayerTakeKeepsFull(old(deck), old(playerCards), dealerCards, deck, playerCards, card);
      CalculateScores();
    }

    /** `stand`: only while playing; the dealer draws from the top of the deck
        while the dealer's score is below 17, then the round finishes and is
        settled. The cards the dealer drew are the old deck's top cards in
        the order they were popped, and each was drawn below 17. */
    method Stand()
      requires Valid()
      modifies this, ledger`balance
      ensures Valid()
      ensures old(gameState) != Playing ==> unchanged(this) && ledger.balance == old(ledger.balance)
      ensures old(gameState) == Playing ==>
        && gameState == Finished
        && dealerScore >= 17
        && playerCards == old(playerCards)
        && DealerDrewFrom(old(deck), old(dealerCards))
        && ledger.balance == old(ledger.balance) + Settlement(playerScore, dealerScore, currentBet)
      ensures currentBet == old(currentBet)
    {
      if gameState != Playing {
        return;
      }
      gameState := DealerTurn;
      DealerDraws();
      gameState := Finished;
      CheckWinner();
    }

    /** The dealer's turn so far, measured from the deck and hand it began with. */
    ghost predicate DealerDrewFrom(startDeck: seq<Card>, startHand: seq<Card>)
      reads this
    {
      DrewFrom(deck, dealerCards, startDeck, startHand)
    }

    /** The loop of `stand`: while the dealer's score is below 17, pop the top
        card into the dealer's hand and rescore. */
    method DealerDraws()
      requires Valid() && gameState == DealerTurn && playerScore <= 21
      modifies this`deck, this`dealerCards, this`playerScore, this`dealerScore
      ensures Valid()
      ensures dealerScore >= 17 && playerCards == old(playerCards) && playerScore == old(playerScore)
      ensures DealerDrewFrom(old(deck), old(dealerCards))
    {
      DrewNothing(deck, dealerCards);
      while dealerScore < 17
        invariant Valid() && playerCards == old(playerCards) && playerScore == old(playerScore)
        invariant DealerDrewFrom(old(deck), old(dealerCards))
        decreases |deck|
      {
        DealerHit(old(deck), old(dealerCards));
      }
    }

    /** One pass of the dealer's loop: pop the top card into the dealer's
        hand and rescore. */
    method DealerHit(ghost startDeck: seq<Card>, ghost startHand: seq<Card>)
      requires Valid() && gameState == DealerTurn && playerScore <= 21 && dealerScore < 17
      requires DealerDrewFrom(startDeck, startHand)
      modifies this`deck, this`dealerCards, this`playerScore, this`dealerScore
      ensures Valid() && playerCards == old(playerCards) && playerScore == old(playerScore)
      ensures DealerDrewFrom(startDeck, startHand)
      ensures |deck| < |old(deck)|
    {
      DealerTakes(startDeck, startHand);
      CalculateScores();
    }

    /** The pop and push of one dealer draw, before the rescoring. */
    method DealerTakes(ghost startDeck: seq<Card>, ghost startHand: seq<Card>)
      requires Valid() && gameState == DealerTurn && playerScore <= 21 && dealerScore < 17
      requires DealerDrewFrom(startDeck, startHand)
      modifies this`deck, this`dealerCards
      ensures IsFullDeck(multiset(deck) + multiset(playerCards) + multiset(dealerCards))
      ensures DealerDrewFrom(startDeck, startHand)
      ensures |deck| < |old(deck)|
    {
      HandValueBounds(playerCards);
      HandValueBounds(dealerCards);
      DeckNotEmpty(deck, playerCards, dealerCards);
      var card := DrawCard();
      dealerCards := dealerCards + [card];
      assert old(deck) == deck + [card];
      DealerTakeKeepsFull(old(deck), playerCards, old(dealerCards), deck, dealerCards, card, startDeck, startHand);
    }

    /** `checkWinner`: credits the settlement for the current bet. */
    method CheckWinner()
      modifies ledger`balance
      ensures ledger.balance == old(ledger.balance) + Settlement(playerScore, dealerScore, currentBet)
    {
      if playerScore > 21 {
      } else if dealerScore > 21 {
        ledger.AddBalance(currentBet * 2);
      } else if playerScore > dealerScore {
        ledger.AddBalance(currentBet * 2);
      } else if playerScore < dealerScore {
      } else {
        ledger.AddBalance(currentBet);
      }
    }
  }
}
