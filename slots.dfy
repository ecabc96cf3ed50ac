/** The slot machine screen: a three-reel machine that stakes the current
    bet through the shared ledger. Each reel's random draw is a parameter. */
module Slots {
  import opened GameManager
  import opened SlotRules

  class SlotsGame {
    const ledger: Ledger
    var currentBet: int
    var isSpinning: bool
    var spinDisabled: bool

    /** The object literal: a bet of 10, idle, the spin button enabled. */
    constructor (ledger: Ledger)
      ensures this.ledger == ledger
      ensures currentBet == 10 && !isSpinning && !spinDisabled
    {
      this.ledger := ledger;
      currentBet := 10;
      isSpinning := false;
      spinDisabled := false;
    }

    /** A bet button: accepted only when the balance covers it. */
    method SelectBet(bet: int) returns (accepted: bool)
      modifies this`currentBet
      ensures accepted <==> bet <= ledger.balance
      ensures currentBet == if accepted then bet else old(currentBet)
    {
      var balance := ledger.GetBalance();
      accepted := bet <= balance;
      if accepted {
        currentBet := bet;
      }
    }

    /** The part of `spin` before the reels animate: the guards (already
        spinning, then the balance, then a positive bet), then the machine
        is marked spinning, the button disabled and the stake deducted. */
    method StartSpin() returns (outcome: SpinOutcome)
      modifies this`isSpinning, this`spinDisabled, ledger`balance
      ensures outcome == (if old(isSpinning) then AlreadySpinning
                          else if currentBet > old(ledger.balance) then InsufficientBalance
                          else if currentBet <= 0 then NoBet
                          else Spun)
      ensures outcome != Spun ==>
        isSpinning == old(isSpinning) && spinDisabled == old(spinDisabled) && ledger.balance == old(ledger.balance)
      ensures outcome == Spun ==>
        isSpinning && spinDisabled && ledger.balance == old(ledger.balance) - currentBet
    {
      if isSpinning {
        return AlreadySpinning;
      }
      var balance := ledger.GetBalance();
      if currentBet > balance {
        return InsufficientBalance;
      }
      if currentBet <= 0 {
        return NoBet;
      }
      isSpinning := true;
      spinDisabled := true;
      var _ := ledger.DeductBalance(currentBet);
      outcome := Spun;
    }

    /** The part of `spin` after the reels stop: the three symbols the draws
        select are scored, a win is credited, the button stays disabled
        exactly when the balance is gone, and the machine is idle again. */
    method FinishSpin(d1: real, d2: real, d3: real) returns (result: seq<Symbol>, win: int)
      modifies this`isSpinning, this`spinDisabled, ledger`balance
      ensures result == [WeightedSymbol(d1), WeightedSymbol(d2), WeightedSymbol(d3)]
      ensures win == WinAmount(currentBet, CalculateWin(result))
      ensures ledger.balance == old(ledger.balance) + (if win > 0 then win else 0)
      ensures spinDisabled <==> ledger.balance <= 0
      ensures !isSpinning
    {
      var r1 := GetRandomSymbol(d1);
      var r2 := GetRandomSymbol(d2);
      var r3 := GetRandomSymbol(d3);
      result := [r1, r2, r3];
      var multiplier := CalculateWin(result);
      win := if multiplier > 0 then currentBet * multiplier else 0;
      if win > 0 {
        ledger.AddBalance(win);
      }
      var balance := ledger.GetBalance();
      spinDisabled := balance <= 0;
      isSpinning := false;
    }

    /** `spin` as one step. A refused spin changes nothing; an accepted one
        moves the balance by the payout minus the stake, which never takes
        a non-negative balance below zero. */
    method Spin(d1: real, d2: real, d3: real) returns (outcome: SpinOutcome)
      modifies this`isSpinning, this`spinDisabled, ledger`balance
      ensures outcome == (if old(isSpinning) then AlreadySpinning
                          else if currentBet > old(ledger.balance) then InsufficientBalance
                          else if currentBet <= 0 then NoBet
                          else Spun)
      ensures outcome != Spun ==>
        isSpinning == old(isSpinning) && spinDisabled == old(spinDisabled) && ledger.balance == old(ledger.balance)
      ensures outcome == Spun ==>
        && ledger.balance == old(ledger.balance) - currentBet + WinAmount(currentBet, ReelsMultiplier(d1, d2, d3))
        && ledger.balance >= 0
        && !isSpinning && (spinDisabled <==> ledger.balance <= 0)
    {
      outcome := StartSpin();
      if outcome == Spun {
        var _, _ := FinishSpin(d1, d2, d3);
      }
    }
  }
}
