/** A run over FIFO channels, one request each, in which one process ends up in two parties: three
    hares, parties of two. B's request reaches C only after the party start of A that already took B. */
module LateRequest {
  import opened Types
  import opened Queue
  import opened NodeModel
  import opened Network
  import opened Leaders
  import opened Disjointness
  import opened Boards
  import Ordering

  const OFFSET := 10_000_000
  const CFG := Config(3, 2, 3, OFFSET, 4, 1)

  const A: nat := 0
  const B: nat := 1
  const C: nat := 2

  // ---------- Tickets and messages ----------

  const T_A := Ticket(A, 1)
  const T_B := Ticket(B, 5)
  const T_C := Ticket(C, 3)

  const REQ_A := Request(T_A)
  const REPLY_C_TO_A := Reply(Ticket(C, 2), T_A)
  const REQ_C := Request(T_C)
  const REPLY_B_TO_A := Reply(Ticket(B, 2), T_A)
  const REPLY_B_TO_C := Reply(Ticket(B, 4), T_C)
  const REQ_B := Request(T_B)
  const REPLY_A_TO_B := Reply(Ticket(A, 6), T_B)
  const PARTY_A := PartyStart(Ticket(A, 9), 9, [A, B])
  const REPLY_C_TO_B := Reply(Ticket(C, 12), T_B)
  const REPLY_A_TO_C := Reply(Ticket(A, 10), T_C)
  const PARTY_C := PartyStart(Ticket(C, 15), 2 * OFFSET + 15, [C, B])

  // ---------- The processes, one event after the other ----------

  const NONE := [false, false, false]

  function Free(me: nat, clock: nat, queue: seq<Ticket>, led: nat): NodeState {
    NodeState(clock, Idle, queue, None, None, NONE, me * OFFSET + led)
  }

  function Waiting(me: nat, clock: nat, queue: seq<Ticket>, pending: Ticket, tracker: seq<bool>, led: nat): NodeState {
    NodeState(clock, WaitingForReplies, queue, None, Some(pending), tracker, me * OFFSET + led)
  }

  function Partying(me: nat, clock: nat, queue: seq<Ticket>, party: Party, led: nat): NodeState {
    NodeState(clock, InParty, queue, Some(party), None, NONE, me * OFFSET + led)
  }

  const A0 := Free(A, 0, [], 0)
  const A1 := Waiting(A, 1, [T_A], T_A, [true, false, false], 0)
  const A2 := Waiting(A, 3, [T_A], T_A, [true, true, false], 0)
  const A3 := Waiting(A, 6, [T_A, T_B], T_A, [true, true, false], 0)
  const A4 := Partying(A, 9, [], Party(A, 9, [A, B]), 1)
  const A5 := Partying(A, 10, [T_C], Party(A, 9, [A, B]), 1)

  const B0 := Free(B, 0, [], 0)
  const B1 := Free(B, 2, [T_A], 0)
  const B2 := Free(B, 4, [T_A, T_C], 0)
  const B3 := Waiting(B, 5, [T_A, T_C, T_B], T_B, [false, true, false], 0)

  const C0 := Free(C, 0, [], 0)
  const C1 := Free(C, 2, [T_A], 0)
  const C2 := Waiting(C, 3, [T_A, T_C], T_C, [false, false, true], 0)
  const C3 := Waiting(C, 10, [T_C], T_C, [false, false, true], 0)
  const C4 := Waiting(C, 11, [T_C], T_C, [false, true, true], 0)
  const C5 := Waiting(C, 12, [T_C, T_B], T_C, [false, true, true], 0)
  const C6 := Partying(C, 15, [], Party(C, 2 * OFFSET + 15, [C, B]), 1)

  lemma Trackers()
    ensures NoReplies(CFG) == NONE
    ensures NONE[A := true] == [true, false, false]
    ensures NONE[B := true] == [false, true, false]
    ensures NONE[C := true] == [false, false, true]
    ensures [false, false, true][B := true] == [false, true, true]
    ensures [false, true, true][A := true] == [true, true, true]
    ensures [true, false, false][B := true] == [true, true, false]
    ensures [true, true, false][C := true] == [true, true, true]
  {
  }

  lemma AHandles1()
    ensures Handled(CFG, A, A0, Local(WantParty), A1, [Broadcast(REQ_A)])
    ensures Handled(CFG, A, A1, Net(B, REPLY_B_TO_A), A2, [])
  {
    Trackers();
    EnqueueIs([], T_A, [T_A]);
  }

  lemma AHandles3()
    ensures Handled(CFG, A, A2, Net(B, REQ_B), A3, [Send(B, REPLY_A_TO_B)])
  {
    Trackers();
    EnqueueIs([T_A], T_B, [T_A, T_B]);
    assert forall a: Action :: [a] + [] == [a];
  }

  lemma AHandles4()
    ensures Handled(CFG, A, A3, Net(C, REPLY_C_TO_A), A4, [Notify(EnteredParty), Broadcast(PARTY_A)])
  {
    Trackers();
    Leading(CFG, A, A3, C, Ticket(C, 2), T_A);
    assert Pids([T_A, T_B][..2]) == [A, B];
    RemoveAllIs([T_A, T_B], [A, B], []);
  }

  lemma AHandles5()
    ensures Handled(CFG, A, A4, Net(C, REQ_C), A5, [Send(C, REPLY_A_TO_C)])
  {
    Trackers();
    EnqueueIs([], T_C, [T_C]);
    assert forall a: Action :: [a] + [] == [a];
  }

  lemma BHandles1()
    ensures Handled(CFG, B, B0, Net(A, REQ_A), B1, [Send(A, REPLY_B_TO_A)])
    ensures Handled(CFG, B, B1, Net(C, REQ_C), B2, [Send(C, REPLY_B_TO_C)])
  {
    Trackers();
    EnqueueIs([], T_A, [T_A]);
    EnqueueIs([T_A], T_C, [T_A, T_C]);
    assert forall a: Action :: [a] + [] == [a];
  }

  lemma BHandles3()
    ensures Handled(CFG, B, B2, Local(WantParty), B3, [Broadcast(REQ_B)])
  {
    Trackers();
    EnqueueIs([T_A, T_C], T_B, [T_A, T_C, T_B]);
  }

  lemma CHandles1()
    ensures Handled(CFG, C, C0, Net(A, REQ_A), C1, [Send(A, REPLY_C_TO_A)])
    ensures Handled(CFG, C, C1, Local(WantParty), C2, [Broadcast(REQ_C)])
  {
    Trackers();
    EnqueueIs([], T_A, [T_A]);
    EnqueueIs([T_A], T_C, [T_A, T_C]);
    assert forall a: Action :: [a] + [] == [a];
  }

  lemma CHandles3()
    ensures Handled(CFG, C, C2, Net(A, PARTY_A), C3, [])
    ensures Handled(CFG, C, C3, Net(B, REPLY_B_TO_C), C4, [])
  {
    Trackers();
    RemoveAllIs([T_A, T_C], [A, B], [T_C]);
  }

  lemma CHandles5()
    ensures Handled(CFG, C, C4, Net(B, REQ_B), C5, [Send(B, REPLY_C_TO_B)])
  {
    Trackers();
    EnqueueIs([T_C], T_B, [T_C, T_B]);
    assert forall a: Action :: [a] + [] == [a];
  }

  lemma CHandles6()
    ensures Handled(CFG, C, C5, Net(A, REPLY_A_TO_C), C6, [Notify(EnteredParty), Broadcast(PARTY_C)])
  {
    Trackers();
    Leading(CFG, C, C5, A, Ticket(A, 10), T_C);
    assert Pids([T_C, T_B][..2]) == [C, B];
    RemoveAllIs([T_C, T_B], [C, B], []);
  }

  // ---------- The run ----------

  const AT0 := Board(A0, B0, C0, A0, NOTHING, NOTHING, NOTHING, NOTHING, {}, {})
  const AT1 := AT0.(p0 := A1, from0 := Row([], [REQ_A], [REQ_A], []), asked := {A})
  const AT2 := AT1.(p2 := C1, from0 := Row([], [REQ_A], [], []), from2 := Row([REPLY_C_TO_A], [], [], []))
  const AT3 := AT2.(p2 := C2, from2 := Row([REPLY_C_TO_A, REQ_C], [REQ_C], [], []), asked := {A, C})
  const AT4 := AT3.(p1 := B1, from0 := NOTHING, from1 := Row([REPLY_B_TO_A], [], [], []))
  const AT5 := AT4.(p1 := B2,
                      from1 := Row([REPLY_B_TO_A], [], [REPLY_B_TO_C], []),
                      from2 := Row([REPLY_C_TO_A, REQ_C], [], [], []))
  const AT6 := AT5.(p1 := B3, from1 := Row([REPLY_B_TO_A, REQ_B], [], [REPLY_B_TO_C, REQ_B], []), asked := {A, B, C})
  const AT7 := AT6.(p0 := A2, from1 := Row([REQ_B], [], [REPLY_B_TO_C, REQ_B], []))
  const AT8 := AT7.(p0 := A3,
                      from0 := Row([], [REPLY_A_TO_B], [], []),
                      from1 := Row([], [], [REPLY_B_TO_C, REQ_B], []))
  const AT9 := AT8.(p0 := A4,
                      from0 := Row([], [REPLY_A_TO_B, PARTY_A], [PARTY_A], []),
                      from2 := Row([REQ_C], [], [], []))
  const AT10 := AT9.(p2 := C3, from0 := Row([], [REPLY_A_TO_B, PARTY_A], [], []))
  const AT11 := AT10.(p2 := C4, from1 := Row([], [], [REQ_B], []))
  const AT12 := AT11.(p2 := C5, from1 := NOTHING, from2 := Row([REQ_C], [REPLY_C_TO_B], [], []))
  const AT13 := AT12.(p0 := A5,
                      from0 := Row([], [REPLY_A_TO_B, PARTY_A], [REPLY_A_TO_C], []),
                      from2 := Row([], [REPLY_C_TO_B], [], []))
  const AT14 := AT13.(p2 := C6,
                      from0 := Row([], [REPLY_A_TO_B, PARTY_A], [], []),
                      from2 := Row([PARTY_C], [REPLY_C_TO_B, PARTY_C], [], []))

  lemma Turns1()
    ensures Turn(CFG, AT0, Want(A), A1, [Broadcast(REQ_A)], AT1)
    ensures Turn(CFG, AT1, Deliver(A, C), C1, [Send(A, REPLY_C_TO_A)], AT2)
  {
  }

  lemma Turns2()
    ensures Turn(CFG, AT2, Want(C), C2, [Broadcast(REQ_C)], AT3)
    ensures Turn(CFG, AT3, Deliver(A, B), B1, [Send(A, REPLY_B_TO_A)], AT4)
  {
  }

  lemma Turns3()
    ensures Turn(CFG, AT4, Deliver(C, B), B2, [Send(C, REPLY_B_TO_C)], AT5)
    ensures Turn(CFG, AT5, Want(B), B3, [Broadcast(REQ_B)], AT6)
  {
  }

  lemma Turns4()
    ensures Turn(CFG, AT6, Deliver(B, A), A2, [], AT7)
    ensures Turn(CFG, AT7, Deliver(B, A), A3, [Send(B, REPLY_A_TO_B)], AT8)
  {
  }

  lemma Turns5()
    ensures Turn(CFG, AT8, Deliver(C, A), A4, [Notify(EnteredParty), Broadcast(PARTY_A)], AT9)
  {
  }

  lemma Turns6()
    ensures Turn(CFG, AT9, Deliver(A, C), C3, [], AT10)
    ensures Turn(CFG, AT10, Deliver(B, C), C4, [], AT11)
  {
  }

  lemma Turns7()
    ensures Turn(CFG, AT11, Deliver(B, C), C5, [Send(B, REPLY_C_TO_B)], AT12)
    ensures Turn(CFG, AT12, Deliver(C, A), A5, [Send(C, REPLY_A_TO_C)], AT13)
  {
  }

  lemma Turns8()
    ensures Turn(CFG, AT13, Deliver(A, C), C6, [Notify(EnteredParty), Broadcast(PARTY_C)], AT14)
  {
  }

  /** A and C ask; nobody has heard of C yet. */
  lemma Part1(s: System) returns (s': System)
    requires Stage(CFG, s, AT0)
    ensures Stage(CFG, s', AT4)
  {
    AHandles1();
    BHandles1();
    CHandles1();
    Turns1();
    Turns2();
    s' := s;
    s' := Play(CFG, s', AT0, Want(A), A1, [Broadcast(REQ_A)], AT1);
    s' := Play(CFG, s', AT1, Deliver(A, C), C1, [Send(A, REPLY_C_TO_A)], AT2);
    s' := Play(CFG, s', AT2, Want(C), C2, [Broadcast(REQ_C)], AT3);
    s' := Play(CFG, s', AT3, Deliver(A, B), B1, [Send(A, REPLY_B_TO_A)], AT4);
  }

  /** B has heard of both and asks; A, who has not heard of C, leads with B. */
  lemma Part2(s: System) returns (s': System)
    requires Stage(CFG, s, AT4)
    ensures Stage(CFG, s', AT9)
  {
    AHandles1();
    AHandles3();
    AHandles4();
    BHandles1();
    BHandles3();
    Turns3();
    Turns4();
    Turns5();
    s' := s;
    s' := Play(CFG, s', AT4, Deliver(C, B), B2, [Send(C, REPLY_B_TO_C)], AT5);
    s' := Play(CFG, s', AT5, Want(B), B3, [Broadcast(REQ_B)], AT6);
    s' := Play(CFG, s', AT6, Deliver(B, A), A2, [], AT7);
    s' := Play(CFG, s', AT7, Deliver(B, A), A3, [Send(B, REPLY_A_TO_B)], AT8);
    s' := Play(CFG, s', AT8, Deliver(C, A), A4, [Notify(EnteredParty), Broadcast(PARTY_A)], AT9);
  }

  /** C hears of the party, then of B, and leads with B. */
  lemma Part3(s: System) returns (s': System)
    requires Stage(CFG, s, AT9)
    ensures Stage(CFG, s', AT14)
  {
    AHandles5();
    CHandles3();
    CHandles5();
    CHandles6();
    Turns6();
    Turns7();
    Turns8();
    s' := s;
    s' := Play(CFG, s', AT9, Deliver(A, C), C3, [], AT10);
    s' := Play(CFG, s', AT10, Deliver(B, C), C4, [], AT11);
    s' := Play(CFG, s', AT11, Deliver(B, C), C5, [Send(B, REPLY_C_TO_B)], AT12);
    s' := Play(CFG, s', AT12, Deliver(C, A), A5, [Send(C, REPLY_A_TO_C)], AT13);
    s' := Play(CFG, s', AT13, Deliver(A, C), C6, [Notify(EnteredParty), Broadcast(PARTY_C)], AT14);
  }

  /** Reliable FIFO channels and one request each do not make parties disjoint: here B is named by A and
      again by C, who saw its request only after the first party. */
  lemma FifoAloneIsNotEnough()
    ensures Supported(CFG)
    ensures exists s, j, j' ::
              && Ordering.Reachable(CFG, s) && OneShot(s)
              && LeadsAt(s, A, j) && B in Members(s, A, j) && LeadsAt(s, C, j') && B in Members(s, C, j')
    ensures exists s :: Ordering.Reachable(CFG, s) && OneShot(s) && !PartiesDisjoint(s) && !FreshPicks(s)
  {
    var s := Start(CFG, AT0);
    s := Part1(s);
    s := Part2(s);
    s := Part3(s);
    NobodyAskedAgain(CFG, s, AT14);
    var j := PartyOnTheWay(CFG, s, AT14, A, B, 1);
    var j' := PartyOnTheWay(CFG, s, AT14, C, A, 0);
    assert LeadsAt(s, A, j) && B in Members(s, A, j) && LeadsAt(s, C, j') && B in Members(s, C, j');
    assert (A, j) != (C, j');
    DisjointExactly(CFG, s);
    assert Ordering.Reachable(CFG, s) && OneShot(s) && !PartiesDisjoint(s) && !FreshPicks(s);
  }
}
