/** The logical clock of the core: rules IR1 (`Tick`) and IR2 (`Update`) of Lamport's 1978 paper. */
module LamportClocks {

  function Max(a: int, b: int): int {
    if a >= b then a else b
  }

  class LamportClock {
    var value: nat

    constructor ()
      ensures value == 0
    {
      value := 0;
    }

    method Tick() returns (issued: nat)
      modifies this
      ensures issued == value == old(value) + 1
    {
      value := value + 1;
      issued := value;
    }

    /** The new value is past both the local clock and the received timestamp, and it is the
        least such value. */
    method Update(received: nat) returns (issued: nat)
      modifies this
      ensures issued == value
      ensures issued > old(value) && issued > received
      ensures issued == old(value) + 1 || issued == received + 1
    {
      value := Max(value, received) + 1;
      issued := value;
    }
  }
}
