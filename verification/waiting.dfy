/** A run over FIFO channels, one request each, after which C waits in vain: four hares, parties of two.
    B's request reaches C only after the party start of A that already took B, and stays there, ahead of
    C's own. When everything has been delivered, C and D could be a party, and none comes about. */
module WaitingInVain {
  import opened Types
  import opened Queue
  import opened NodeModel
  import opened Process
  import opened Network
  import opened Histories
  import opened Ordering
  import opened Leaders
  import opened Disjointness
  import opened Boards
  import Causality
  import Parties
  import Progress
  import Repeated
  import Termination

  const OFFSET := 10_000_000
  const CFG := Config(4, 2, 4, OFFSET, 4, 1)

  const A: nat := 0
  const B: nat := 1
  const C: nat := 2
  const D: nat := 3

  // ---------- Tickets and messages ----------

  const T_A := Ticket(A, 1)
  const T_B := Ticket(B, 3)
  const T_C := Ticket(C, 11)
  const T_D := Ticket(D, 13)

  const REQ_A := Request(T_A)
  const REPLY_B_TO_A := Reply(Ticket(B, 2), T_A)
  const REPLY_C_TO_A := Reply(Ticket(C, 2), T_A)
  const REPLY_D_TO_A := Reply(Ticket(D, 2), T_A)
  const REQ_B := Request(T_B)
  const REPLY_A_TO_B := Reply(Ticket(A, 4), T_B)
  const PARTY_A := PartyStart(Ticket(A, 8), 8, [A, B])
  const REPLY_C_TO_B := Reply(Ticket(C, 10), T_B)
  const REQ_C := Request(T_C)
  const REPLY_D_TO_C := Reply(Ticket(D, 12), T_C)
  const REQ_D := Request(T_D)

  // ---------- The processes, one event after the other ----------

  const NONE := [false, false, false, false]

  function Free(me: nat, clock: nat, queue: seq<Ticket>, led: nat): NodeState {
    NodeState(clock, Idle, queue, None, None, NONE, me * OFFSET + led)
  }

  function Waiting(me: nat, clock: nat, queue: seq<Ticket>, pending: Ticket, tracker: seq<bool>, led: nat): NodeState {
    NodeState(clock, WaitingForReplies, queue, None, Some(pending), tracker, me * OFFSET + led)
  }

  function Partying(me: nat, clock: nat, queue: seq<Ticket>, party: Party, led: nat): NodeState {
    NodeState(clock, InParty, queue, Some(party), None, NONE, me * OFFSET + led)
  }

  const A0 := Free(A, 0, [], 0)
  const A1 := Waiting(A, 1, [T_A], T_A, [true, false, false, false], 0)
  const A2 := Waiting(A, 3, [T_A], T_A, [true, true, false, false], 0)
  const A3 := Waiting(A, 4, [T_A, T_B], T_A, [true, true, false, false], 0)
  const A4 := Waiting(A, 5, [T_A, T_B], T_A, [true, true, true, false], 0)
  const A5 := Partying(A, 8, [], Party(A, 8, [A, B]), 1)

  const B0 := Free(B, 0, [], 0)
  const B1 := Free(B, 2, [T_A], 0)
  const B2 := Waiting(B, 3, [T_A, T_B], T_B, [false, true, false, false], 0)

  const C0 := Free(C, 0, [], 0)
  const C1 := Free(C, 2, [T_A], 0)
  const C2 := Free(C, 9, [], 0)
  const C3 := Free(C, 10, [T_B], 0)
  const C4 := Waiting(C, 11, [T_B, T_C], T_C, [false, false, true, false], 0)

  const D0 := Free(D, 0, [], 0)
  const D1 := Free(D, 2, [T_A], 0)
  const D2 := Free(D, 12, [T_A, T_C], 0)
  const D3 := Waiting(D, 13, [T_A, T_C, T_D], T_D, [false, false, false, true], 0)

  lemma Trackers()
    ensures NoReplies(CFG) == NONE
    ensures NONE[A := true] == [true, false, false, false]
    ensures NONE[B := true] == [false, true, false, false]
    ensures NONE[C := true] == [false, false, true, false]
    ensures NONE[D := true] == [false, false, false, true]
    ensures [true, false, false, false][B := true] == [true, true, false, false]
    ensures [true, true, false, false][C := true] == [true, true, true, false]
    ensures [true, true, true, false][D := true] == [true, true, true, true]
  {
  }

  lemma AHandles1()
    ensures Handled(CFG, A, A0, Local(WantParty), A1, [Broadcast(REQ_A)])
    ensures Handled(CFG, A, A1, Net(B, REPLY_B_TO_A), A2, [])
  {
    Trackers();
    EnqueueIs([], T_A, [T_A]);
  }

  lemma AHandles3()
    ensures Handled(CFG, A, A2, Net(B, REQ_B), A3, [Send(B, REPLY_A_TO_B)])
    ensures Handled(CFG, A, A3, Net(C, REPLY_C_TO_A), A4, [])
  {
    Trackers();
    EnqueueIs([T_A], T_B, [T_A, T_B]);
    assert forall a: Action :: [a] + [] == [a];
  }

  lemma AHandles5()
    ensures Handled(CFG, A, A4, Net(D, REPLY_D_TO_A), A5, [Notify(EnteredParty), Broadcast(PARTY_A)])
  {
    Trackers();
    Leading(CFG, A, A4, D, Ticket(D, 2), T_A);
    assert Pids([T_A, T_B][..2]) == [A, B];
    RemoveAllIs([T_A, T_B], [A, B], []);
  }

  lemma BHandles1()
    ensures Handled(CFG, B, B0, Net(A, REQ_A), B1, [Send(A, REPLY_B_TO_A)])
    ensures Handled(CFG, B, B1, Local(WantParty), B2, [Broadcast(REQ_B)])
  {
    Trackers();
    EnqueueIs([], T_A, [T_A]);
    EnqueueIs([T_A], T_B, [T_A, T_B]);
    assert forall a: Action :: [a] + [] == [a];
  }

  lemma CHandles1()
    ensures Handled(CFG, C, C0, Net(A, REQ_A), C1, [Send(A, REPLY_C_TO_A)])
    ensures Handled(CFG, C, C1, Net(A, PARTY_A), C2, [])
  {
    Trackers();
    EnqueueIs([], T_A, [T_A]);
    RemoveAllIs([T_A], [A, B], []);
    assert forall a: Action :: [a] + [] == [a];
  }

  lemma CHandles3()
    ensures Handled(CFG, C, C2, Net(B, REQ_B), C3, [Send(B, REPLY_C_TO_B)])
    ensures Handled(CFG, C, C3, Local(WantParty), C4, [Broadcast(REQ_C)])
  {
    Trackers();
    EnqueueIs([], T_B, [T_B]);
    EnqueueIs([T_B], T_C, [T_B, T_C]);
    assert forall a: Action :: [a] + [] == [a];
  }

  lemma DHandles1()
    ensures Handled(CFG, D, D0, Net(A, REQ_A), D1, [Send(A, REPLY_D_TO_A)])
    ensures Handled(CFG, D, D1, Net(C, REQ_C), D2, [Send(C, REPLY_D_TO_C)])
  {
    Trackers();
    EnqueueIs([], T_A, [T_A]);
    EnqueueIs([T_A], T_C, [T_A, T_C]);
    assert forall a: Action :: [a] + [] == [a];
  }

  lemma DHandles3()
    ensures Handled(CFG, D, D2, Local(WantParty), D3, [Broadcast(REQ_D)])
  {
    Trackers();
    EnqueueIs([T_A, T_C], T_D, [T_A, T_C, T_D]);
  }

  // ---------- The run ----------

  const AT0 := Board(A0, B0, C0, D0, NOTHING, NOTHING, NOTHING, NOTHING, {}, {})
  const AT1 := AT0.(p0 := A1, from0 := Row([], [REQ_A], [REQ_A], [REQ_A]), asked := {A})
  const AT2 := AT1.(p1 := B1, from0 := Row([], [], [REQ_A], [REQ_A]), from1 := Row([REPLY_B_TO_A], [], [], []))
  const AT3 := AT2.(p2 := C1, from0 := Row([], [], [], [REQ_A]), from2 := Row([REPLY_C_TO_A], [], [], []))
  const AT4 := AT3.(p3 := D1, from0 := NOTHING, from3 := Row([REPLY_D_TO_A], [], [], []))
  const AT5 := AT4.(p1 := B2, from1 := Row([REPLY_B_TO_A, REQ_B], [], [REQ_B], [REQ_B]), asked := {A, B})
  const AT6 := AT5.(p0 := A2, from1 := Row([REQ_B], [], [REQ_B], [REQ_B]))
  const AT7 := AT6.(p0 := A3, from0 := Row([], [REPLY_A_TO_B], [], []), from1 := Row([], [], [REQ_B], [REQ_B]))
  const AT8 := AT7.(p0 := A4, from2 := NOTHING)
  const AT9 := AT8.(p0 := A5, from0 := Row([], [REPLY_A_TO_B, PARTY_A], [PARTY_A], [PARTY_A]), from3 := NOTHING)
  const AT10 := AT9.(p2 := C2, from0 := Row([], [REPLY_A_TO_B, PARTY_A], [], [PARTY_A]))
  const AT11 := AT10.(p2 := C3, from1 := Row([], [], [], [REQ_B]), from2 := Row([], [REPLY_C_TO_B], [], []))
  const AT12 := AT11.(p2 := C4, from2 := Row([REQ_C], [REPLY_C_TO_B, REQ_C], [], [REQ_C]), asked := {A, B, C})
  const AT13 := AT12.(p3 := D2,
                      from2 := Row([REQ_C], [REPLY_C_TO_B, REQ_C], [], []),
                      from3 := Row([], [], [REPLY_D_TO_C], []))
  const AT14 := AT13.(p3 := D3, from3 := Row([REQ_D], [REQ_D], [REPLY_D_TO_C, REQ_D], []), asked := {A, B, C, D})

  lemma Turns1()
    ensures Turn(CFG, AT0, Want(A), A1, [Broadcast(REQ_A)], AT1)
    ensures Turn(CFG, AT1, Deliver(A, B), B1, [Send(A, REPLY_B_TO_A)], AT2)
  {
  }

  lemma Turns2()
    ensures Turn(CFG, AT2, Deliver(A, C), C1, [Send(A, REPLY_C_TO_A)], AT3)
    ensures Turn(CFG, AT3, Deliver(A, D), D1, [Send(A, REPLY_D_TO_A)], AT4)
  {
  }

  lemma Turns3()
    ensures Turn(CFG, AT4, Want(B), B2, [Broadcast(REQ_B)], AT5)
    ensures Turn(CFG, AT5, Deliver(B, A), A2, [], AT6)
  {
  }

  lemma Turns4()
    ensures Turn(CFG, AT6, Deliver(B, A), A3, [Send(B, REPLY_A_TO_B)], AT7)
    ensures Turn(CFG, AT7, Deliver(C, A), A4, [], AT8)
  {
  }

  lemma Turns5()
    ensures Turn(CFG, AT8, Deliver(D, A), A5, [Notify(EnteredParty), Broadcast(PARTY_A)], AT9)
  {
  }

  lemma Turns6()
    ensures Turn(CFG, AT9, Deliver(A, C), C2, [], AT10)
  {
  }

  lemma Turns7()
    ensures Turn(CFG, AT10, Deliver(B, C), C3, [Send(B, REPLY_C_TO_B)], AT11)
  {
  }

  lemma Turns8()
    ensures Turn(CFG, AT11, Want(C), C4, [Broadcast(REQ_C)], AT12)
    ensures Turn(CFG, AT12, Deliver(C, D), D2, [Send(C, REPLY_D_TO_C)], AT13)
  {
  }

  lemma Turns9()
    ensures Turn(CFG, AT13, Want(D), D3, [Broadcast(REQ_D)], AT14)
  {
  }

  /** A and B ask. */
  lemma Part1(s: System) returns (s': System)
    requires Stage(CFG, s, AT0)
    ensures Stage(CFG, s', AT5)
  {
    AHandles1();
    BHandles1();
    CHandles1();
    DHandles1();
    Turns1();
    Turns2();
    Turns3();
    s' := s;
    s' := Play(CFG, s', AT0, Want(A), A1, [Broadcast(REQ_A)], AT1);
    s' := Play(CFG, s', AT1, Deliver(A, B), B1, [Send(A, REPLY_B_TO_A)], AT2);
    s' := Play(CFG, s', AT2, Deliver(A, C), C1, [Send(A, REPLY_C_TO_A)], AT3);
    s' := Play(CFG, s', AT3, Deliver(A, D), D1, [Send(A, REPLY_D_TO_A)], AT4);
    s' := Play(CFG, s', AT4, Want(B), B2, [Broadcast(REQ_B)], AT5);
  }

  /** A leads with B. */
  lemma Part2(s: System) returns (s': System)
    requires Stage(CFG, s, AT5)
    ensures Stage(CFG, s', AT9)
  {
    AHandles1();
    AHandles3();
    AHandles5();
    Turns3();
    Turns4();
    Turns5();
    s' := s;
    s' := Play(CFG, s', AT5, Deliver(B, A), A2, [], AT6);
    s' := Play(CFG, s', AT6, Deliver(B, A), A3, [Send(B, REPLY_A_TO_B)], AT7);
    s' := Play(CFG, s', AT7, Deliver(C, A), A4, [], AT8);
    s' := Play(CFG, s', AT8, Deliver(D, A), A5, [Notify(EnteredParty), Broadcast(PARTY_A)], AT9);
  }

  /** Entry `i` of C's history is A's party start, entry `k` the request of B. */
  ghost predicate HeardLate(s: System, i: nat, k: nat) {
    && |s| == 4 && i < k < |s[C].trace|
    && s[C].trace[i] == In(Net(A, PARTY_A)) && s[C].trace[k] == In(Net(B, REQ_B))
  }

  lemma HeardLateStays(s: System, s': System, i: nat, k: nat)
    requires HeardLate(s, i, k) && Causality.Continues(s, s')
    ensures HeardLate(s', i, k)
  {
  }

  /** C hears of A's party, and then of B. */
  lemma PartyThenRequest(s: System) returns (s': System, i: nat, k: nat)
    requires Stage(CFG, s, AT9)
    ensures Stage(CFG, s', AT11) && HeardLate(s', i, k)
  {
    CHandles1();
    CHandles3();
    Turns6();
    Turns7();
    var s1 := Play(CFG, s, AT9, Deliver(A, C), C2, [], AT10);
    s' := Play(CFG, s1, AT10, Deliver(B, C), C3, [Send(B, REPLY_C_TO_B)], AT11);
    i, k := |s[C].trace|, |s1[C].trace|;
    ReachableInv(CFG, s);
    ReachableInv(CFG, s1);
    Repeated.HistoryAfterDelivery(CFG, s, A, C);
    Repeated.HistoryAfterDelivery(CFG, s1, B, C);
  }

  /** C and D ask. */
  lemma Part3(s: System, i: nat, k: nat) returns (s': System)
    requires Stage(CFG, s, AT11) && HeardLate(s, i, k)
    ensures Stage(CFG, s', AT14) && HeardLate(s', i, k)
  {
    CHandles3();
    DHandles1();
    DHandles3();
    Turns8();
    Turns9();
    var s1 := Play(CFG, s, AT11, Want(C), C4, [Broadcast(REQ_C)], AT12);
    HeardLateStays(s, s1, i, k);
    var s2 := Play(CFG, s1, AT12, Deliver(C, D), D2, [Send(C, REPLY_D_TO_C)], AT13);
    HeardLateStays(s1, s2, i, k);
    s' := Play(CFG, s2, AT13, Want(D), D3, [Broadcast(REQ_D)], AT14);
    HeardLateStays(s2, s', i, k);
  }

  // ---------- What holds from then on ----------

  /** A leads with B; C has asked and later D, both after B; and C heard of B too late. */
  ghost predicate Doomed(s: System, j: nat, i: nat, k: nat) {
    && Reachable(CFG, s) && OneShot(s) && HeardLate(s, i, k)
    && LeadsAt(s, A, j) && PartyOf(s, A, j) == PARTY_A
    && Issued(s, T_A) && Issued(s, T_B) && Issued(s, T_C) && Issued(s, T_D)
  }

  ghost predicate Issued(s: System, t: Ticket) {
    exists k: nat :: IssuedBy(s, t, k)
  }

  lemma RequestOnTheWay(s: System, b: Board, p: nat, q: nat, k: nat)
    requires Stage(CFG, s, b) && p < 4 && q < 4 && k < |Channel(b, p, q)| && Channel(b, p, q)[k].Request?
    ensures Issued(s, Channel(b, p, q)[k].requestTicket)
  {
    ReachableInv(CFG, s);
    var j := UnderWayWasSent(CFG, s, p, q, k);
    assert IssuedBy(s, Channel(b, p, q)[k].requestTicket, j);
  }

  /** With one request each, every ticket of a process is the one it is known to have issued. */
  lemma OnlyTicket(s: System, t: Ticket, u: Ticket)
    requires OneShot(s) && Issued(s, t) && Issued(s, u) && t.pid == u.pid
    ensures t == u
  {
  }

  lemma LeadsOnOwn(s: System, l: nat, j: nat, t: Ticket)
    requires Reachable(CFG, s) && OneShot(s) && LeadsAt(s, l, j) && Issued(s, t) && t.pid == l
    ensures LeadTicket(s, l, j) == t
  {
    ReachableInv(CFG, s);
    var k := AtTheStart(CFG, s, l, j);
    OnlyTicket(s, LeadTicket(s, l, j), t);
  }

  /** B is in A's party, so B does not lead. */
  lemma BNeverLeads(s: System, j: nat, i: nat, k: nat, l: nat, jl: nat)
    requires Doomed(s, j, i, k) && LeadsAt(s, l, jl)
    ensures l != B
  {
    if l == B {
      LeadersAreNotNamed(CFG, s, B, jl, A, j);
    }
  }

  /** Leading, C would have to see a party that names B after B's request came. A's party came before
      that; and D, who asked after C, cannot lead before C. */
  lemma CNeverLeads(s: System, j: nat, i: nat, k: nat, jc: nat)
    requires Doomed(s, j, i, k)
    ensures !LeadsAt(s, C, jc)
  {
    if LeadsAt(s, C, jc) {
      var o, jo, n := NamesBLater(s, j, i, k, jc);
      BNeverLeads(s, j, i, k, o, jo);
      if o == A {
        SeenFromA(s, j, i, jo, n);
      } else if o == C {
        LeadersOnce(s, C, jc, jo);
      } else {
        NotBeforeC(s, jc, jo, n);
      }
    }
  }

  lemma LeadersOnce(s: System, l: nat, j: nat, j': nat)
    requires Reachable(CFG, s) && OneShot(s) && LeadsAt(s, l, j) && LeadsAt(s, l, j')
    ensures j == j'
  {
    ReachableInv(CFG, s);
    LeadsOnce(CFG, s, l, j, j');
  }

  /** Before it leads, C sees a party naming B that came after B's request. */
  lemma NamesBLater(s: System, j: nat, i: nat, k: nat, jc: nat) returns (o: nat, jo: nat, n: nat)
    requires Doomed(s, j, i, k) && LeadsAt(s, C, jc)
    ensures k < n < jc && LeadsAt(s, o, jo) && o < 4
    ensures if o == C then jo == n else s[C].trace[n] == In(Net(o, PartyOf(s, o, jo)))
  {
    ReachableInv(CFG, s);
    LeadsOnOwn(s, C, jc, T_C);
    var kb: nat :| IssuedBy(s, T_B, kb);
    var e;
    e, n := LeadershipIsEarned(CFG, s, C, jc, T_B, kb);
    OneTicketEach(CFG, s, C, e, k, T_B, T_B);
    o, jo := NamedByLeader(CFG, s, C, n, B);
  }

  lemma SeenFromA(s: System, j: nat, i: nat, jo: nat, n: nat)
    requires Reachable(CFG, s) && OneShot(s) && |s| == 4 && LeadsAt(s, A, j) && PartyOf(s, A, j) == PARTY_A
    requires i < |s[C].trace| && s[C].trace[i] == In(Net(A, PARTY_A))
    requires LeadsAt(s, A, jo) && n < |s[C].trace| && s[C].trace[n] == In(Net(A, PartyOf(s, A, jo)))
    ensures n == i
  {
    ReachableInv(CFG, s);
    LeadsOnce(CFG, s, A, j, jo);
    Repeated.SeenOnce(CFG, s, C, i, n, A, j);
  }

  /** Of C and D, both leading, D has seen C's party before it started its own. */
  lemma NotBeforeC(s: System, jc: nat, jd: nat, n: nat)
    requires Reachable(CFG, s) && OneShot(s) && |s| == 4 && Issued(s, T_C) && Issued(s, T_D)
    requires LeadsAt(s, C, jc) && LeadsAt(s, D, jd) && n < |s[C].trace| && s[C].trace[n] == In(Net(D, PartyOf(s, D, jd)))
    ensures jc <= n
  {
    ReachableInv(CFG, s);
    LeadsOnOwn(s, C, jc, T_C);
    LeadsOnOwn(s, D, jd, T_D);
    var e := LeadersAreOrdered(CFG, s, C, jc, D, jd);
    SentIsLater(CFG, D, s[D].trace, e, jd, PartyOf(s, C, jc), PartyOf(s, D, jd));
    if n < jc {
      SentIsLater(CFG, C, s[C].trace, n, jc, PartyOf(s, D, jd), PartyOf(s, C, jc));
    }
  }

  /** Leading, D would have to see a party that names C, and nobody starts one. */
  lemma DNeverLeads(s: System, j: nat, i: nat, k: nat, jd: nat)
    requires Doomed(s, j, i, k)
    ensures !LeadsAt(s, D, jd)
  {
    if LeadsAt(s, D, jd) {
      var o, jo, n := NamesC(s, j, i, k, jd);
      BNeverLeads(s, j, i, k, o, jo);
      if o == C {
        CNeverLeads(s, j, i, k, jo);
      } else if o == A {
        LeadersOnce(s, A, j, jo);
      } else {
        LeadersOnce(s, D, jd, jo);
      }
    }
  }

  lemma NamesC(s: System, j: nat, i: nat, k: nat, jd: nat) returns (o: nat, jo: nat, n: nat)
    requires Doomed(s, j, i, k) && LeadsAt(s, D, jd)
    ensures n < jd && LeadsAt(s, o, jo) && o < 4 && C in Members(s, o, jo) && (o == D ==> jo == n)
  {
    ReachableInv(CFG, s);
    LeadsOnOwn(s, D, jd, T_D);
    var kc: nat :| IssuedBy(s, T_C, kc);
    var e;
    e, n := LeadershipIsEarned(CFG, s, D, jd, T_C, kc);
    o, jo := NamedByLeader(CFG, s, D, n, C);
  }

  /** So A's party is the only one. */
  lemma OnlyA(s: System, j: nat, i: nat, k: nat, l: nat, jl: nat)
    requires Doomed(s, j, i, k) && LeadsAt(s, l, jl)
    ensures l == A && jl == j
  {
    BNeverLeads(s, j, i, k, l, jl);
    CNeverLeads(s, j, i, k, jl);
    DNeverLeads(s, j, i, k, jl);
    LeadersOnce(s, A, j, jl);
  }

  /** The unserved tickets are those of C and D. */
  lemma UnservedAreTwo(s: System, j: nat, i: nat, k: nat, t: Ticket)
    requires Doomed(s, j, i, k)
    ensures Unserved(s, t) <==> t == T_C || t == T_D
  {
    if t == T_C || t == T_D {
      forall l, jl | LeadsAt(s, l, jl) ensures t.pid !in Members(s, l, jl) {
        OnlyA(s, j, i, k, l, jl);
      }
    } else if Unserved(s, t) {
      assert t.pid !in Members(s, A, j);
      OnlyTicket(s, t, if t.pid == C then T_C else T_D);
    }
  }

  lemma HaresPair()
    ensures Parties.ValidGroup(CFG, {C, D})
  {
    assert Parties.WeightBelow(CFG, {C, D}, 1) == 0;
    assert Parties.WeightBelow(CFG, {C, D}, 2) == 0;
    assert Parties.WeightBelow(CFG, {C, D}, 3) == 1;
    assert Parties.WeightBelow(CFG, {C, D}, 4) == 2;
    assert SpeciesOf(C, CFG) == Hare;
  }

  /** One request each over FIFO channels, everything delivered: C owns the oldest unserved ticket, C and
      D are a valid party, and yet C does not head its own queue. Requests ahead of party starts are
      what progress needs. */
  lemma OldestWaitsInVain()
    ensures Supported(CFG) && Parties.ValidGroup(CFG, {C, D})
    ensures exists s: System ::
              && Reachable(CFG, s) && OneShot(s) && Quiet(s)
              && (forall t :: Unserved(s, t) <==> t == T_C || t == T_D) && Before(T_C, T_D)
              && s[C].node.state.Queued? && s[C].node.queue != [] && s[C].node.queue[0] != T_C
  {
    HaresPair();
    var s, j, i, k := QuietDoom();
    CWaits(s, j, i, k);
    forall t ensures Unserved(s, t) <==> t == T_C || t == T_D {
      UnservedAreTwo(s, j, i, k, t);
    }
  }

  lemma CWaits(s: System, j: nat, i: nat, k: nat)
    requires Doomed(s, j, i, k) && Quiet(s)
    ensures s[C].node.state.Queued? && s[C].node.queue != [] && s[C].node.queue[0] != T_C
  {
    UnservedAreTwo(s, j, i, k, T_C);
    QuietRequesterIsQueued(CFG, s, T_C);
    UnservedIsEverywhere(CFG, s, C, T_C);
    StillAhead(s, j, i, k);
  }

  lemma QuietDoom() returns (s: System, j: nat, i: nat, k: nat)
    ensures Doomed(s, j, i, k) && Quiet(s)
  {
    var s0;
    s0, j, i, k := Doom();
    var steps :| IsRun(CFG, steps) && Run(CFG, steps) == s0;
    var longer := Termination.NetworkDrains(CFG, steps);
    s := Run(CFG, longer);
    GrowsTo(steps, longer);
    DoomedStays(s0, s, j, i, k);
  }

  lemma Doom() returns (s: System, j: nat, i: nat, k: nat)
    ensures Doomed(s, j, i, k)
  {
    s := Start(CFG, AT0);
    s := Part1(s);
    s := Part2(s);
    s, i, k := PartyThenRequest(s);
    s := Part3(s, i, k);
    NobodyAskedAgain(CFG, s, AT14);
    j := PartyOnTheWay(CFG, s, AT14, A, B, 1);
    TicketA(s);
    RequestOnTheWay(s, AT14, B, D, 0);
    RequestOnTheWay(s, AT14, C, A, 0);
    RequestOnTheWay(s, AT14, D, A, 0);
  }

  /** A's request is still in D's queue. */
  lemma TicketA(s: System)
    requires Stage(CFG, s, AT14)
    ensures Issued(s, T_A)
  {
    ReachableInv(CFG, s);
    assert T_A in s[D].node.queue;
    QueueContent(D, s[D].trace, T_A);
    var i: nat :| HeldFrom(s[D].trace, T_A, i);
    var k := PutWasIssued(CFG, s, D, i, T_A);
  }

  /** B's request has lingered in C's queue. */
  lemma StillAhead(s: System, j: nat, i: nat, k: nat)
    requires Doomed(s, j, i, k) && s[C].node.queue != []
    ensures s[C].node.queue[0] != T_C
  {
    ReachableInv(CFG, s);
    forall n | k < n < |s[C].trace| ensures !Names(s[C].trace[n], B) {
      NeverNamedLater(s, j, i, k, n);
    }
    assert s[C].trace[..|s[C].trace|] == s[C].trace;
    OneInsertion(CFG, s, C, |s[C].trace|, T_B, k);
    QueueContent(C, s[C].trace, T_B);
  }

  lemma NeverNamedLater(s: System, j: nat, i: nat, k: nat, n: nat)
    requires Doomed(s, j, i, k) && k < n < |s[C].trace|
    ensures !Names(s[C].trace[n], B)
  {
    ReachableInv(CFG, s);
    if Names(s[C].trace[n], B) {
      var o, jo := NamedByLeader(CFG, s, C, n, B);
      OnlyA(s, j, i, k, o, jo);
      SeenFromA(s, j, i, jo, n);
    }
  }

  lemma GrowsTo(steps: seq<Step>, longer: seq<Step>)
    requires Supported(CFG) && IsRun(CFG, steps) && IsRun(CFG, longer) && Termination.Extends(steps, longer)
    ensures Causality.Continues(Run(CFG, steps), Run(CFG, longer))
  {
    RunsKeepInv(CFG, steps);
    forall p: nat | p < 4 ensures Run(CFG, steps)[p].trace <= Run(CFG, longer)[p].trace {
      Progress.TracesGrow(CFG, longer, |steps|, p);
    }
    RunsKeepInv(CFG, longer);
  }

  lemma DoomedStays(s: System, s': System, j: nat, i: nat, k: nat)
    requires Doomed(s, j, i, k) && Causality.Continues(s, s') && Reachable(CFG, s') && OneShot(s')
    ensures Doomed(s', j, i, k)
  {
    HeardLateStays(s, s', i, k);
    LeadStays(s, s', A, j);
    IssuedStays(s, s', T_A);
    IssuedStays(s, s', T_B);
    IssuedStays(s, s', T_C);
    IssuedStays(s, s', T_D);
  }

  lemma IssuedStays(s: System, s': System, t: Ticket)
    requires Issued(s, t) && Causality.Continues(s, s')
    ensures Issued(s', t)
  {
    var k: nat :| IssuedBy(s, t, k);
    assert IssuedBy(s', t, k);
  }
}
