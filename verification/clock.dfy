/** The Lamport clock of one process. */
module Clock {
  function AfterReceive(now: nat, remote: nat): nat {
    (if now < remote then remote else now) + 1
  }

  class LamportClock {
    var time: nat

    constructor ()
      ensures time == 0
    {
      time := 0;
    }

    method Tick() returns (now: nat)
      modifies this
      ensures time == old(time) + 1 && now == time
    {
      time := time + 1;
      now := time;
    }

    /** Afterwards the clock is ahead of both its own past and the sender's stamp. */
    method OnReceive(remote: nat)
      modifies this
      ensures time == AfterReceive(old(time), remote)
      ensures time > old(time) && time > remote
    {
      time := (if time < remote then remote else time) + 1;
    }

    method Now() returns (now: nat)
      ensures now == time
    {
      now := time;
    }
  }
}
