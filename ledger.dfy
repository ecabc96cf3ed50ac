/** The shared game manager: one balance that every game stakes from and
    credits to, and the name of the screen currently shown. */
module GameManager {

  class Ledger {
    var balance: int
    var currentGame: string

    /** The object literal: a starting balance of 1000 on the world map. */
    constructor ()
      ensures balance == 1000 && currentGame == "world"
    {
      balance := 1000;
      currentGame := "world";
    }

    /** Credits `amount` unconditionally. */
    method AddBalance(amount: int)
      modifies this`balance
      ensures balance == old(balance) + amount
    {
      balance := balance + amount;
    }

    /** Debits `amount` only when it is covered; otherwise fails and changes nothing. */
    method DeductBalance(amount: int) returns (ok: bool)
      modifies this`balance
      ensures ok <==> old(balance) >= amount
      ensures ok ==> balance == old(balance) - amount
      ensures !ok ==> balance == old(balance)
      ensures old(balance) >= 0 ==> balance >= 0
    {
      if balance >= amount {
        balance := balance - amount;
        ok := true;
      } else {
        ok := false;
      }
    }

    /** A plain read of the balance. */
    method GetBalance() returns (b: int)
      ensures b == balance
    {
      b := balance;
    }

    /** Shows the game's screen and records it as current, but only when
        that screen exists (`screenExists` stands for the DOM lookup). */
    method SwitchToGame(gameName: string, screenExists: bool)
      modifies this`currentGame
      ensures currentGame == (if screenExists then gameName else old(currentGame))
    {
      if screenExists {
        currentGame := gameName;
      }
    }

    /** Goes back to the world map when its screen exists. */
    method ReturnToWorld(worldScreenExists: bool)
      modifies this`currentGame
      ensures currentGame == (if worldScreenExists then "world" else old(currentGame))
    {
      if worldScreenExists {
        currentGame := "world";
      }
    }
  }

  /** Deducting the whole balance always succeeds and leaves exactly zero. */
  method DeductAll(ledger: Ledger) returns (ok: bool)
    modifies ledger`balance
    ensures ok && ledger.balance == 0
  {
    var b := ledger.GetBalance();
    ok := ledger.DeductBalance(b);
  }
}
