/** The roulette table: a single-zero wheel of 37 pockets, five even-money
    or straight-up bets on it, and the spin that stakes the current bet
    through the shared ledger and credits the win. The random pocket is the
    index `Math.floor(Math.random() * 37)`, passed in as `index`. */
module Roulette {
  import opened Wrappers
  import opened GameManager

  datatype PocketColor = Green | Red | Black

  /** One pocket of the wheel: its number and colour. */
  datatype Pocket = Pocket(num: nat, color: PocketColor)

  /** The bet options on the table: a colour, the zero, or a half of 1..36. */
  datatype BetOption = OnRed | OnBlack | OnZero | OnLow | OnHigh

  /** The `numbers` table, in wheel order. */
  const Wheel: seq<Pocket> := [
    Pocket(0, Green),
    Pocket(32, Red), Pocket(15, Black), Pocket(19, Red),
    Pocket(4, Black), Pocket(21, Red), Pocket(2, Black),
    Pocket(25, Red), Pocket(17, Black), Pocket(34, Red),
    Pocket(6, Black), Pocket(27, Red), Pocket(13, Black),
    Pocket(36, Red), Pocket(11, Black), Pocket(30, Red),
    Pocket(8, Black), Pocket(23, Red), Pocket(10, Black),
    Pocket(5, Red), Pocket(24, Black), Pocket(16, Red),
    Pocket(33, Black), Pocket(1, Red), Pocket(20, Black),
    Pocket(14, Red), Pocket(31, Black), Pocket(9, Red),
    Pocket(22, Black), Pocket(18, Red), Pocket(29, Black),
    Pocket(7, Red), Pocket(28, Black), Pocket(12, Red),
    Pocket(35, Black), Pocket(3, Red), Pocket(26, Black)
  ]

  /** The red numbers of a standard single-zero wheel. */
  const RedNumbers: set<nat> := {1, 3, 5, 7, 9, 12, 14, 16, 18, 19, 21, 23, 25, 27, 30, 32, 34, 36}

  /** Where each number 0..36 sits on the wheel (`WheelPosition[n]` is the
      index of the pocket holding `n`). */
  const WheelPosition: seq<nat> := [
    0, 23, 6, 35, 4, 19, 10, 31, 16, 27, 18, 14, 33, 12, 25, 2, 21, 8, 29,
    3, 24, 5, 28, 17, 20, 7, 36, 11, 32, 30, 15, 26, 1, 22, 9, 34, 13
  ]

  /** Every number 0..36 is on the wheel exactly once. */
  lemma WheelIsOneToOne()
    ensures |Wheel| == 37
    ensures forall i :: 0 <= i < |Wheel| ==> Wheel[i].num <= 36
    ensures |WheelPosition| == 37
    ensures forall n :: 0 <= n < |WheelPosition| ==> WheelPosition[n] < |Wheel| && Wheel[WheelPosition[n]].num == n
    ensures forall i, j :: 0 <= i < |Wheel| && 0 <= j < |Wheel| && Wheel[i].num == Wheel[j].num ==> i == j
  {
    assert forall i :: 0 <= i < |Wheel| ==> Wheel[i].num <= 36 && WheelPosition[Wheel[i].num] == i;
  }

  /** Only 0 is green; a pocket is red exactly when its number is one of the
      red numbers, and black otherwise. */
  lemma WheelColors()
    ensures forall i :: 0 <= i < |Wheel| ==> (Wheel[i].color == Green <==> Wheel[i].num == 0)
    ensures forall i :: 0 <= i < |Wheel| ==> (Wheel[i].color == Red <==> Wheel[i].num in RedNumbers)
    ensures forall i :: 0 <= i < |Wheel| ==> (Wheel[i].color == Black <==> Wheel[i].num != 0 && Wheel[i].num !in RedNumbers)
  {
  }

  /** The pocket at wheel index `i`: a number up to 36, green exactly when
      it is 0, and found again at its `WheelPosition`. */
  lemma PocketAt(i: nat)
    requires i < |Wheel|
    ensures Wheel[i].num <= 36 && (Wheel[i].color == Green <==> Wheel[i].num == 0)
    ensures WheelPosition[Wheel[i].num] == i
  {
    WheelColors();
    WheelIsOneToOne();
  }

  /** `getRandomNumber`: the pocket at a random index below 37. */
  function GetRandomNumber(index: nat): (p: Pocket)
    requires index < |Wheel|
    ensures p.num <= 36 && (p.color == Green <==> p.num == 0)
    ensures p.num < |WheelPosition| && WheelPosition[p.num] == index
  {
    PocketAt(index);
    Wheel[index]
  }

  /** `calculateWin`: the amount credited for the selected option when the
      ball lands on `pocket`. */
  function CalculateWin(selected: Option<BetOption>, bet: int, pocket: Pocket): (win: int)
    ensures selected == None ==> win == 0
    ensures win == 0 || win == 2 * bet || win == 36 * bet
    ensures win == 36 * bet && bet != 0 ==> selected == Some(OnZero) && pocket.num == 0
  {
    match selected
    case None => 0
    case Some(option) =>
      if option == OnRed && pocket.color == Red then bet * 2
      else if option == OnBlack && pocket.color == Black then bet * 2
      else if option == OnZero && pocket.num == 0 then bet * 36
      else if option == OnLow && 1 <= pocket.num <= 18 then bet * 2
      else if option == OnHigh && 19 <= pocket.num <= 36 then bet * 2
      else 0
  }

  /** The numbers each option covers, and what it pays per unit staked. */
  predicate Covers(option: BetOption, n: nat)
  {
    match option
    case OnRed => n in RedNumbers
    case OnBlack => 1 <= n <= 36 && n !in RedNumbers
    case OnZero => n == 0
    case OnLow => 1 <= n <= 18
    case OnHigh => 19 <= n <= 36
  }

  function Odds(option: BetOption): nat
  {
    if option == OnZero then 36 else 2
  }

  /** On every pocket of the wheel, `calculateWin` pays the option's odds
      exactly when the option covers the number, and nothing otherwise. */
  lemma CalculateWinPaysCoveredNumbers(option: BetOption, bet: int, index: nat)
    requires index < |Wheel|
    ensures CalculateWin(Some(option), bet, Wheel[index])
         == if Covers(option, Wheel[index].num) then Odds(option) * bet else 0
  {
    WheelColors();
    WheelIsOneToOne();
  }

  /** Landing on 0 pays only the bet on 0. */
  lemma ZeroPaysOnlyZeroBet(option: BetOption, bet: int)
    requires bet > 0
    ensures CalculateWin(Some(option), bet, Wheel[0]) > 0 <==> option == OnZero
  {
  }

  /** Only a positive win is paid into the ledger. */
  function Credited(win: int): (paid: nat)
    ensures paid == win || (paid == 0 && win <= 0)
  {
    if win > 0 then win else 0
  }

  datatype SpinOutcome = AlreadySpinning | NoBetSelected | InsufficientBalance | Spun

  class RouletteGame {
    const ledger: Ledger
    var currentBet: int
    var selectedBet: Option<BetOption>
    var isSpinning: bool

    /** The object literal: a bet of 10, no option selected, not spinning. */
    constructor (ledger: Ledger)
      ensures this.ledger == ledger
      ensures currentBet == 10 && selectedBet == None && !isSpinning
    {
      this.ledger := ledger;
      currentBet := 10;
      selectedBet := None;
      isSpinning := false;
    }

    /** A bet-amount button: accepted only when the balance covers it. */
    method SelectBetAmount(bet: int) returns (accepted: bool)
      modifies this`currentBet
      ensures accepted <==> bet <= ledger.balance
      ensures currentBet == if accepted then bet else old(currentBet)
    {
      var balance := ledger.GetBalance();
      accepted := bet <= balance;
      if accepted {
        currentBet := bet;
      }
    }

    /** A bet-option click: ignored while the wheel is spinning. */
    method SelectBetOption(option: BetOption)
      modifies this`selectedBet
      ensures selectedBet == if isSpinning then old(selectedBet) else Some(option)
    {
      if !isSpinning {
        selectedBet := Some(option);
      }
    }

    /** The part of `spin` before the wheel animation: the three guards, in
        the source's order, then the wheel is marked spinning and the stake
        is deducted. A refused spin changes nothing. */
    method StartSpin() returns (outcome: SpinOutcome)
      modifies this`isSpinning, ledger`balance
      ensures outcome == (if old(isSpinning) then AlreadySpinning
                          else if selectedBet == None then NoBetSelected
                          else if currentBet > old(ledger.balance) then InsufficientBalance
                          else Spun)
      ensures outcome != Spun ==> isSpinning == old(isSpinning) && ledger.balance == old(ledger.balance)
      ensures outcome == Spun ==> isSpinning && ledger.balance == old(ledger.balance) - currentBet
    {
      if isSpinning {
        return AlreadySpinning;
      }
      if selectedBet == None {
        return NoBetSelected;
      }
      var balance := ledger.GetBalance();
      if currentBet > balance {
        return InsufficientBalance;
      }
      isSpinning := true;
      var _ := ledger.DeductBalance(currentBet);
      outcome := Spun;
    }

    /** The part of `spin` after the animation: the win for the pocket at
        `index` is credited and the selection cleared (only when the wheel
        is on screen, `wheelShown`), and the wheel stops spinning. */
    method FinishSpin(index: nat, wheelShown: bool) returns (win: int)
      requires index < |Wheel|
      modifies this`isSpinning, this`selectedBet, ledger`balance
      ensures win == (if wheelShown then CalculateWin(old(selectedBet), currentBet, Wheel[index]) else 0)
      ensures ledger.balance == old(ledger.balance) + Credited(win)
      ensures selectedBet == (if wheelShown then None else old(selectedBet))
      ensures !isSpinning
    {
      win := 0;
      if wheelShown {
        var pocket := GetRandomNumber(index);
        win := CalculateWin(selectedBet, currentBet, pocket);
        if win > 0 {
          ledger.AddBalance(win);
        }
        selectedBet := None;
      }
      isSpinning := false;
    }

    /** `spin` as one step: a refused spin changes nothing; an accepted one
        moves the balance by the win minus the stake, clears the selection
        and leaves the wheel idle. */
    method Spin(index: nat) returns (outcome: SpinOutcome, win: int)
      requires index < |Wheel|
      modifies this`isSpinning, this`selectedBet, ledger`balance
      ensures outcome == (if old(isSpinning) then AlreadySpinning
                          else if old(selectedBet) == None then NoBetSelected
                          else if currentBet > old(ledger.balance) then InsufficientBalance
                          else Spun)
      ensures outcome != Spun ==>
        && win == 0 && ledger.balance == old(ledger.balance)
        && selectedBet == old(selectedBet) && isSpinning == old(isSpinning)
      ensures outcome == Spun ==>
        && win == CalculateWin(old(selectedBet), currentBet, Wheel[index])
        && ledger.balance == old(ledger.balance) - currentBet + Credited(win)
        && selectedBet == None && !isSpinning
    {
      win := 0;
      outcome := StartSpin();
      if outcome == Spun {
        win := FinishSpin(index, true);
      }
    }
  }
}
