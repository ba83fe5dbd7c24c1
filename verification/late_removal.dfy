/** A run over FIFO channels in which a party start removes a newer request: three hares, parties of two.
    B has been in A's party and asks again before C hears of that party. C then drops B's new request. */
module LateRemoval {
  import opened Types
  import opened Queue
  import opened NodeModel
  import opened Network
  import opened Leaders
  import opened Repeated
  import opened Boards
  import Ordering
  import Traces
  import Fairness

  const OFFSET := 10_000_000
  const CFG := Config(3, 2, 3, OFFSET, 4, 1)

  const A: nat := 0
  const B: nat := 1
  const C: nat := 2

  // ---------- Tickets and messages; a 2 marks what belongs to a second request ----------

  const T_A := Ticket(A, 1)
  const T_B := Ticket(B, 3)
  const T_B2 := Ticket(B, 10)

  const REQ_A := Request(T_A)
  const REPLY_B_TO_A := Reply(Ticket(B, 2), T_A)
  const REPLY_C_TO_A := Reply(Ticket(C, 2), T_A)
  const REQ_B := Request(T_B)
  const REPLY_A_TO_B := Reply(Ticket(A, 4), T_B)
  const PARTY_A := PartyStart(Ticket(A, 7), 7, [A, B])
  const REQ_B2 := Request(T_B2)
  const REPLY_C_TO_B := Reply(Ticket(C, 4), T_B)
  const REPLY_C_TO_B2 := Reply(Ticket(C, 11), T_B2)

  // ---------- The processes, one event after the other ----------

  const NONE := [false, false, false]

  function Free(me: nat, clock: nat, queue: seq<Ticket>, led: nat): NodeState {
    NodeState(clock, Idle, queue, None, None, NONE, me * OFFSET + led)
  }

  function Waiting(me: nat, clock: nat, queue: seq<Ticket>, pending: Ticket, tracker: seq<bool>, led: nat): NodeState {
    NodeState(clock, WaitingForReplies, queue, None, Some(pending), tracker, me * OFFSET + led)
  }

  function Partying(me: nat, clock: nat, queue: seq<Ticket>, party: Party, led: nat): NodeState {
    NodeState(clock, InParty, queue, Some(party), None, NONE, me * OFFSET + led)
  }

  const A0 := Free(A, 0, [], 0)
  const A1 := Waiting(A, 1, [T_A], T_A, [true, false, false], 0)
  const A2 := Waiting(A, 3, [T_A], T_A, [true, true, false], 0)
  const A3 := Waiting(A, 4, [T_A, T_B], T_A, [true, true, false], 0)
  const A4 := Partying(A, 7, [], Party(A, 7, [A, B]), 1)

  const B0 := Free(B, 0, [], 0)
  const B1 := Free(B, 2, [T_A], 0)
  const B2 := Waiting(B, 3, [T_A, T_B], T_B, [false, true, false], 0)
  const B3 := Waiting(B, 5, [T_A, T_B], T_B, [true, true, false], 0)
  const B4 := Partying(B, 8, [], Party(A, 7, [A, B]), 0)
  const B5 := Free(B, 9, [], 0)
  const B6 := Waiting(B, 10, [T_B2], T_B2, [false, true, false], 0)

  const C0 := Free(C, 0, [], 0)
  const C1 := Free(C, 2, [T_A], 0)
  const C2 := Free(C, 4, [T_A, T_B], 0)
  const C3 := Free(C, 11, [T_A, T_B2], 0)
  const C4 := Free(C, 12, [], 0)

  lemma Trackers()
    ensures NoReplies(CFG) == NONE
    ensures NONE[A := true] == [true, false, false]
    ensures NONE[B := true] == [false, true, false]
    ensures [false, true, false][A := true] == [true, true, false]
    ensures [true, false, false][B := true] == [true, true, false]
    ensures [true, true, false][C := true] == [true, true, true]
  {
  }

  lemma AHandles1()
    ensures Handled(CFG, A, A0, Local(WantParty), A1, [Broadcast(REQ_A)])
    ensures Handled(CFG, A, A1, Net(B, REPLY_B_TO_A), A2, [])
  {
    Trackers();
    EnqueueIs([], T_A, [T_A]);
  }

  lemma AHandles3()
    ensures Handled(CFG, A, A2, Net(B, REQ_B), A3, [Send(B, REPLY_A_TO_B)])
  {
    Trackers();
    EnqueueIs([T_A], T_B, [T_A, T_B]);
    assert forall a: Action :: [a] + [] == [a];
  }

  lemma AHandles4()
    ensures Handled(CFG, A, A3, Net(C, REPLY_C_TO_A), A4, [Notify(EnteredParty), Broadcast(PARTY_A)])
  {
    Trackers();
    Leading(CFG, A, A3, C, Ticket(C, 2), T_A);
    assert Pids([T_A, T_B][..2]) == [A, B];
    RemoveAllIs([T_A, T_B], [A, B], []);
  }

  lemma BHandles1()
    ensures Handled(CFG, B, B0, Net(A, REQ_A), B1, [Send(A, REPLY_B_TO_A)])
    ensures Handled(CFG, B, B1, Local(WantParty), B2, [Broadcast(REQ_B)])
  {
    Trackers();
    EnqueueIs([], T_A, [T_A]);
    EnqueueIs([T_A], T_B, [T_A, T_B]);
    assert forall a: Action :: [a] + [] == [a];
  }

  lemma BHandles3()
    ensures Handled(CFG, B, B2, Net(A, REPLY_A_TO_B), B3, [])
    ensures Handled(CFG, B, B3, Net(A, PARTY_A), B4, [Notify(EnteredParty)])
  {
    Trackers();
    RemoveAllIs([T_A, T_B], [A, B], []);
    RemoveAllIs([], [A, B], []);
  }

  lemma BHandles5()
    ensures Handled(CFG, B, B4, Local(ReleaseParty), B5, [Notify(ExitedParty)])
    ensures Handled(CFG, B, B5, Local(WantParty), B6, [Broadcast(REQ_B2)])
  {
    Trackers();
    EnqueueIs([], T_B2, [T_B2]);
  }

  lemma CHandles1()
    ensures Handled(CFG, C, C0, Net(A, REQ_A), C1, [Send(A, REPLY_C_TO_A)])
    ensures Handled(CFG, C, C1, Net(B, REQ_B), C2, [Send(B, REPLY_C_TO_B)])
  {
    Trackers();
    EnqueueIs([], T_A, [T_A]);
    EnqueueIs([T_A], T_B, [T_A, T_B]);
    assert forall a: Action :: [a] + [] == [a];
  }

  lemma CHandles3()
    ensures Handled(CFG, C, C2, Net(B, REQ_B2), C3, [Send(B, REPLY_C_TO_B2)])
    ensures Handled(CFG, C, C3, Net(A, PARTY_A), C4, [])
  {
    Trackers();
    EnqueueIs([T_A, T_B], T_B2, [T_A, T_B2]);
    RemoveAllIs([T_A, T_B2], [A, B], []);
    assert forall a: Action :: [a] + [] == [a];
  }

  // ---------- The run ----------

  const AT0 := Board(A0, B0, C0, A0, NOTHING, NOTHING, NOTHING, NOTHING, {}, {})
  const AT1 := AT0.(p0 := A1, from0 := Row([], [REQ_A], [REQ_A], []), asked := {A})
  const AT2 := AT1.(p1 := B1, from0 := Row([], [], [REQ_A], []), from1 := Row([REPLY_B_TO_A], [], [], []))
  const AT3 := AT2.(p2 := C1, from0 := NOTHING, from2 := Row([REPLY_C_TO_A], [], [], []))
  const AT4 := AT3.(p1 := B2, from1 := Row([REPLY_B_TO_A, REQ_B], [], [REQ_B], []), asked := {A, B})
  const AT5 := AT4.(p0 := A2, from1 := Row([REQ_B], [], [REQ_B], []))
  const AT6 := AT5.(p0 := A3, from0 := Row([], [REPLY_A_TO_B], [], []), from1 := Row([], [], [REQ_B], []))
  const AT7 := AT6.(p0 := A4, from0 := Row([], [REPLY_A_TO_B, PARTY_A], [PARTY_A], []), from2 := NOTHING)
  const AT8 := AT7.(p1 := B3, from0 := Row([], [PARTY_A], [PARTY_A], []))
  const AT9 := AT8.(p1 := B4, from0 := Row([], [], [PARTY_A], []))
  const AT10 := AT9.(p1 := B5)
  const AT11 := AT10.(p1 := B6, from1 := Row([REQ_B2], [], [REQ_B, REQ_B2], []), again := {B})
  const AT12 := AT11.(p2 := C2, from1 := Row([REQ_B2], [], [REQ_B2], []), from2 := Row([], [REPLY_C_TO_B], [], []))
  const AT13 := AT12.(p2 := C3,
                      from1 := Row([REQ_B2], [], [], []),
                      from2 := Row([], [REPLY_C_TO_B, REPLY_C_TO_B2], [], []))
  const AT14 := AT13.(p2 := C4, from0 := NOTHING)

  lemma Turns1()
    ensures Turn(CFG, AT0, Want(A), A1, [Broadcast(REQ_A)], AT1)
    ensures Turn(CFG, AT1, Deliver(A, B), B1, [Send(A, REPLY_B_TO_A)], AT2)
  {
  }

  lemma Turns2()
    ensures Turn(CFG, AT2, Deliver(A, C), C1, [Send(A, REPLY_C_TO_A)], AT3)
    ensures Turn(CFG, AT3, Want(B), B2, [Broadcast(REQ_B)], AT4)
  {
  }

  lemma Turns3()
    ensures Turn(CFG, AT4, Deliver(B, A), A2, [], AT5)
    ensures Turn(CFG, AT5, Deliver(B, A), A3, [Send(B, REPLY_A_TO_B)], AT6)
  {
  }

  lemma Turns4()
    ensures Turn(CFG, AT6, Deliver(C, A), A4, [Notify(EnteredParty), Broadcast(PARTY_A)], AT7)
  {
  }

  lemma Turns5()
    ensures Turn(CFG, AT7, Deliver(A, B), B3, [], AT8)
    ensures Turn(CFG, AT8, Deliver(A, B), B4, [Notify(EnteredParty)], AT9)
  {
  }

  lemma Turns6()
    ensures Turn(CFG, AT9, Release(B), B5, [Notify(ExitedParty)], AT10)
    ensures Turn(CFG, AT10, Want(B), B6, [Broadcast(REQ_B2)], AT11)
  {
  }

  lemma Turns7()
    ensures Turn(CFG, AT11, Deliver(B, C), C2, [Send(B, REPLY_C_TO_B)], AT12)
  {
  }

  lemma Turns8()
    ensures Turn(CFG, AT12, Deliver(B, C), C3, [Send(B, REPLY_C_TO_B2)], AT13)
  {
  }

  lemma Turns9()
    ensures Turn(CFG, AT13, Deliver(A, C), C4, [], AT14)
  {
  }

  /** A and B ask. */
  lemma Part1(s: System) returns (s': System)
    requires Stage(CFG, s, AT0)
    ensures Stage(CFG, s', AT4)
  {
    AHandles1();
    BHandles1();
    CHandles1();
    Turns1();
    Turns2();
    s' := s;
    s' := Play(CFG, s', AT0, Want(A), A1, [Broadcast(REQ_A)], AT1);
    s' := Play(CFG, s', AT1, Deliver(A, B), B1, [Send(A, REPLY_B_TO_A)], AT2);
    s' := Play(CFG, s', AT2, Deliver(A, C), C1, [Send(A, REPLY_C_TO_A)], AT3);
    s' := Play(CFG, s', AT3, Want(B), B2, [Broadcast(REQ_B)], AT4);
  }

  /** A leads with B. */
  lemma Part2(s: System) returns (s': System)
    requires Stage(CFG, s, AT4)
    ensures Stage(CFG, s', AT7)
  {
    AHandles1();
    AHandles3();
    AHandles4();
    Turns3();
    Turns4();
    s' := s;
    s' := Play(CFG, s', AT4, Deliver(B, A), A2, [], AT5);
    s' := Play(CFG, s', AT5, Deliver(B, A), A3, [Send(B, REPLY_A_TO_B)], AT6);
    s' := Play(CFG, s', AT6, Deliver(C, A), A4, [Notify(EnteredParty), Broadcast(PARTY_A)], AT7);
  }

  /** B sees the party, leaves it, and asks again. */
  lemma Part3(s: System) returns (s': System)
    requires Stage(CFG, s, AT7)
    ensures Stage(CFG, s', AT11)
  {
    BHandles3();
    BHandles5();
    Turns5();
    Turns6();
    s' := s;
    s' := Play(CFG, s', AT7, Deliver(A, B), B3, [], AT8);
    s' := Play(CFG, s', AT8, Deliver(A, B), B4, [Notify(EnteredParty)], AT9);
    s' := Play(CFG, s', AT9, Release(B), B5, [Notify(ExitedParty)], AT10);
    s' := Play(CFG, s', AT10, Want(B), B6, [Broadcast(REQ_B2)], AT11);
  }

  /** C takes in both requests of B. */
  lemma Part4(s: System) returns (s': System)
    requires Stage(CFG, s, AT11)
    ensures Stage(CFG, s', AT13)
  {
    CHandles1();
    CHandles3();
    Turns7();
    Turns8();
    s' := s;
    s' := Play(CFG, s', AT11, Deliver(B, C), C2, [Send(B, REPLY_C_TO_B)], AT12);
    s' := Play(CFG, s', AT12, Deliver(B, C), C3, [Send(B, REPLY_C_TO_B2)], AT13);
  }

  /** A delivered party start is seen, at the end of the history there was. */
  lemma SeenOnArrival(s: System, from: nat, to: nat) returns (j: nat)
    requires Supported(CFG) && Inv(CFG, s) && Enabled(CFG, s, Deliver(from, to)) && s[from].out[to][0].PartyStart?
    ensures var s' := Next(CFG, s, Deliver(from, to));
            && |s'| == |s| && |s[to].trace| < |s'[to].trace| && s'[to].trace[..|s[to].trace|] == s[to].trace
            && SeenAt(s', to, |s[to].trace|, from, j) && PartyOf(s', from, j) == s[from].out[to][0]
  {
    j := Ordering.UnderWayWasSent(CFG, s, from, to, 0);
    HistoryAfterDelivery(CFG, s, from, to);
  }

  /** The party start of A comes to C, whose queue holds B's second request by then. */
  lemma LastStep(s: System) returns (s': System, j: nat)
    requires Stage(CFG, s, AT13)
    ensures Stage(CFG, s', AT14) && |s'| == |s| == 3 && |s[C].trace| < |s'[C].trace|
    ensures SeenAt(s', C, |s[C].trace|, A, j) && PartyOf(s', A, j) == PARTY_A
    ensures T_B2 in Traces.SummaryOf(C, s'[C].trace[..|s[C].trace|]).queue
  {
    CHandles3();
    Turns9();
    s' := Play(CFG, s, AT13, Deliver(A, C), C4, [], AT14);
    Ordering.ReachableInv(CFG, s);
    j := SeenOnArrival(s, A, C);
  }

  /** FIFO channels do not keep removals exact: the party start of A takes B's second request out of C's
      queue, though the party serves only the first. */
  lemma NewerRequestIsRemoved()
    ensures Supported(CFG)
    ensures exists s: System, n: nat, j: nat ::
              && Ordering.Reachable(CFG, s) && SeenAt(s, C, n, A, j) && B in Members(s, A, j)
              && T_B2 in Traces.SummaryOf(C, s[C].trace[..n]).queue && T_B2 !in s[C].node.queue
              && !Serves(s, A, j, T_B2)
    ensures exists s :: Ordering.Reachable(CFG, s) && !Fairness.ExactRemovals(s)
  {
    var s := Start(CFG, AT0);
    s := Part1(s);
    s := Part2(s);
    s := Part3(s);
    s := Part4(s);
    var s', j := LastStep(s);
    OnlyTheFirst(s', j);
    NotExact(s', C, |s[C].trace|, A, j, T_B2);
  }

  lemma NotExact(s: System, p: nat, n: nat, l: nat, j: nat, t: Ticket)
    requires SeenAt(s, p, n, l, j) && t in Traces.SummaryOf(p, s[p].trace[..n]).queue
    requires t.pid in Members(s, l, j) && !Serves(s, l, j, t)
    ensures !Fairness.ExactRemovals(s)
  {
  }

  lemma OnlyTheFirst(s: System, j: nat)
    requires Ordering.Reachable(CFG, s) && LeadsAt(s, A, j) && PartyOf(s, A, j) == PARTY_A
    ensures !Serves(s, A, j, T_B2)
  {
    Ordering.ReachableInv(CFG, s);
    if Serves(s, A, j, T_B2) {
      var e, k := ServedWasPut(CFG, s, A, j, T_B2);
    }
  }
}
