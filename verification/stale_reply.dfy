/** A run in which one ticket is served twice although delivery is causal, along chains of messages too:
    four hares, parties of three, with the program's own defaults for everything else. Z takes L and M
    into its party while their replies to each other are under way. Both ask again, and count those
    replies for the new requests: M never heard of L's, which is older, and L hears nothing of M's party.
    Each takes Z. */
module StaleReply {
  import opened Types
  import opened Queue
  import opened NodeModel
  import opened Process
  import opened Network
  import opened Histories
  import opened Ordering
  import opened Leaders
  import opened Repeated
  import opened Causality
  import opened Boards
  import Traces

  const OFFSET := 10_000_000
  const CFG := Config(4, 3, 4, OFFSET, 4, 1)

  const Z: nat := 0
  const L: nat := 1
  const M: nat := 2
  const Y: nat := 3

  // ---------- Tickets and messages; a 2 marks what belongs to a second request ----------

  const T_L := Ticket(L, 3)
  const T_L2 := Ticket(L, 12)
  const T_M := Ticket(M, 3)
  const T_M2 := Ticket(M, 12)
  const T_Y := Ticket(Y, 16)
  const T_Z := Ticket(Z, 1)
  const T_Z2 := Ticket(Z, 14)

  const REQ_Z := Request(T_Z)
  const REPLY_L_TO_Z := Reply(Ticket(L, 2), T_Z)
  const REPLY_M_TO_Z := Reply(Ticket(M, 2), T_Z)
  const REPLY_Y_TO_Z := Reply(Ticket(Y, 2), T_Z)
  const REQ_L := Request(T_L)
  const REQ_M := Request(T_M)
  const REPLY_M_TO_L := Reply(Ticket(M, 4), T_L)
  const REPLY_L_TO_M := Reply(Ticket(L, 4), T_M)
  const REPLY_Z_TO_L := Reply(Ticket(Z, 5), T_L)
  const REPLY_Z_TO_M := Reply(Ticket(Z, 6), T_M)
  const REPLY_Y_TO_L := Reply(Ticket(Y, 4), T_L)
  const REPLY_Y_TO_M := Reply(Ticket(Y, 5), T_M)
  const PARTY_Z := PartyStart(Ticket(Z, 9), 9, [Z, L, M])
  const REQ_L2 := Request(T_L2)
  const REQ_M2 := Request(T_M2)
  const REPLY_Z_TO_M2 := Reply(Ticket(Z, 13), T_M2)
  const REQ_Z2 := Request(T_Z2)
  const REPLY_Y_TO_M2 := Reply(Ticket(Y, 13), T_M2)
  const REPLY_Y_TO_Z2 := Reply(Ticket(Y, 15), T_Z2)
  const REQ_Y := Request(T_Y)
  const REPLY_M_TO_Z2 := Reply(Ticket(M, 16), T_Z2)
  const REPLY_M_TO_Y := Reply(Ticket(M, 17), T_Y)
  const REPLY_Z_TO_L2 := Reply(Ticket(Z, 15), T_L2)
  const REPLY_L_TO_M2 := Reply(Ticket(L, 15), T_M2)
  const REPLY_L_TO_Z2 := Reply(Ticket(L, 16), T_Z2)
  const PARTY_M := PartyStart(Ticket(M, 20), 2 * OFFSET + 20, [M, Z, Y])
  const PARTY_L := PartyStart(Ticket(L, 19), OFFSET + 19, [L, M, Z])

  // ---------- Ranks: a second measure, besides the stamp, that grows along every causal chain ----------

  function Rank(m: Message): nat {
    if m == REPLY_L_TO_M then 3
    else if m == REPLY_M_TO_L || m == REPLY_Y_TO_L || m == REPLY_Y_TO_M then 2
    else if m == REPLY_Y_TO_Z || m == PARTY_Z then 1
    else if Stamp(m) < 12 then 0
    else if Author(m) == L || (Author(m) == Z && Stamp(m) >= 15) || (Author(m) == M && Stamp(m) >= 20) then 3
    else 2
  }

  /** The highest rank a process may have met when its clock shows `clock`. */
  function Heard(p: nat, clock: nat): nat {
    if p == Z then if clock < 7 then 0 else if clock < 13 then 1 else if clock < 15 then 2 else 3
    else if p == L then if clock < 4 then 0 else 3
    else if p == M then if clock < 4 then 0 else if clock < 20 then 2 else 3
    else if clock < 2 then 0 else if clock < 4 then 1 else 2
  }

  ghost predicate RankedAt(p: nat, tr: seq<Entry>, clock: nat) {
    && (forall i, m :: 0 <= i < |tr| && Carries(tr[i], m) ==> Rank(m) <= Heard(p, clock))
    && (forall i, j, m, m' :: 0 <= i < j < |tr| && Carries(tr[i], m) && tr[j].Out? && Carries(tr[j], m')
          ==> Rank(m) <= Rank(m'))
  }

  ghost predicate Ranked(s: System) {
    forall p: nat :: p < |s| ==> RankedAt(p, s[p].trace, s[p].node.clock)
  }

  /** What an action sends is ranked between what was heard so far and what may be heard from now on. */
  predicate RankedSend(a: Action, low: nat, high: nat) {
    match a
    case Send(_, m) => low <= Rank(m) <= high
    case Broadcast(m) => low <= Rank(m) <= high
    case Notify(_) => true
  }

  predicate RankedActions(actions: seq<Action>, low: nat, high: nat) {
    && (|actions| == 0 || |actions| == 1 || (|actions| == 2 && actions[0].Notify?))
    && (|actions| > 0 ==> RankedSend(actions[|actions| - 1], low, high))
  }

  function RankIn(ev: Event): nat {
    match ev
    case Net(_, m) => Rank(m)
    case Local(_) => 0
  }

  function Most(a: nat, b: nat): nat {
    if a < b then b else a
  }

  /** The step on the board obeys the ranks, and its message overtakes none ranked no higher. */
  predicate Climbs(b: Board, step: Step, node: NodeState, actions: seq<Action>)
    requires Possible(CFG, b, step)
  {
    var a := Actor(step);
    var before, after, come := Heard(a, NodeOf(b, a).clock), Heard(a, node.clock), RankIn(EventOn(CFG, b, step));
    && Most(before, come) <= after && RankedActions(actions, Most(before, come), after)
    && (step.Deliver? ==> Overtaken(b, step.from, step.to, 0) && Overtaken(b, step.from, step.to, 1)
                          && Overtaken(b, step.from, step.to, 2) && Overtaken(b, step.from, step.to, 3))
  }

  /** What process `a` has under way to `to` is stamped no earlier, or ranked higher. */
  predicate Overtaken(b: Board, from: nat, to: nat, a: nat)
    requires Channel(b, from, to) != []
  {
    a == from || a == to || forall m :: m in Channel(b, a, to) ==>
      Stamp(Channel(b, from, to)[0]) <= Stamp(m) || Rank(Channel(b, from, to)[0]) < Rank(m)
  }

  lemma RankedOn(p: nat, tr: seq<Entry>, clock: nat, ev: Event, actions: seq<Action>, clock': nat)
    requires RankedAt(p, tr, clock) && Most(Heard(p, clock), RankIn(ev)) <= Heard(p, clock')
    requires RankedActions(actions, Most(Heard(p, clock), RankIn(ev)), Heard(p, clock'))
    ensures RankedAt(p, tr + [In(ev)] + Outs(actions), clock')
  {
    var tr' := tr + [In(ev)] + Outs(actions);
    assert forall i :: 0 <= i < |tr| ==> tr'[i] == tr[i];
    assert tr'[|tr|] == In(ev);
    forall i, m | 0 <= i < |tr'| && Carries(tr'[i], m)
      ensures i <= |tr| ==> Rank(m) <= Most(Heard(p, clock), RankIn(ev))
      ensures i > |tr| ==> i == |tr'| - 1 && Most(Heard(p, clock), RankIn(ev)) <= Rank(m) <= Heard(p, clock')
    {
      if i > |tr| {
        assert tr'[i] == Out(actions[i - |tr| - 1]);
      }
    }
  }

  lemma RankedAfter(s: System, b: Board, step: Step, node: NodeState, actions: seq<Action>, b': Board)
    requires Reachable(CFG, s) && Shows(CFG, s, b) && Ranked(s) && Enabled(CFG, s, step)
    requires Goes(CFG, b, step, node, actions, b') && Climbs(b, step, node, actions)
    requires Raised(CFG, s, step) == EventOn(CFG, b, step) && Shows(CFG, Next(CFG, s, step), b')
    ensures Ranked(Next(CFG, s, step))
  {
    ReachableInv(CFG, s);
    var acts := StepTraces(CFG, s, step);
    forall p: nat | p < 4 ensures RankedAt(p, Next(CFG, s, step)[p].trace, Next(CFG, s, step)[p].node.clock) {
      assert RankedAt(p, s[p].trace, s[p].node.clock);
      TurnedCell(CFG, b, step, node, actions, b', p, 0);
      RankedCell(s, Next(CFG, s, step), b, step, node, actions, p);
    }
  }

  lemma RankedCell(s: System, s': System, b: Board, step: Step, node: NodeState, actions: seq<Action>, p: nat)
    requires p < 4 && |s| == |s'| == 4 && RankedAt(p, s[p].trace, s[p].node.clock) && s[p].node == NodeOf(b, p)
    requires Possible(CFG, b, step) && Climbs(b, step, node, actions)
    requires s'[p].node == if p == Actor(step) then node else NodeOf(b, p)
    requires s'[p].trace == if p == Actor(step) then s[p].trace + [In(EventOn(CFG, b, step))] + Outs(actions) else s[p].trace
    ensures RankedAt(p, s'[p].trace, s'[p].node.clock)
  {
    if p == Actor(step) {
      RankedOn(p, s[p].trace, s[p].node.clock, EventOn(CFG, b, step), actions, node.clock);
    }
  }

  lemma RankGrows(s: System, m: Message, m': Message)
    requires Ranked(s) && HappensBefore(s, m, m')
    ensures Rank(m) <= Rank(m')
  {
    var ms :| IsChain(s, ms, m, m');
    forall x, y | Precedes(s, x, y) ensures Rank(x) <= Rank(y) {
      var p: nat :| KnownBefore(s, p, x, y);
      assert RankedAt(p, s[p].trace, s[p].node.clock);
    }
    ChainClimbs(s, ms, |ms| - 1, Rank);
  }

  lemma ClimbsInTurn(s: System, b: Board, from: nat, to: nat, node: NodeState, actions: seq<Action>)
    requires Reachable(CFG, s) && Shows(CFG, s, b) && Ranked(s)
    requires Possible(CFG, b, Deliver(from, to)) && Climbs(b, Deliver(from, to), node, actions)
    ensures InChainTurn(s, from, to)
  {
    forall a, k | 0 <= a < |s| && to < |s[a].out| && 0 <= k < |s[a].out[to]|
      ensures !HappensBefore(s, s[a].out[to][k], s[from].out[to][0])
    {
      ClimbsPast(b, from, to, node, actions, a);
      NotOvertaken(s, b, from, to, a, k);
    }
  }

  lemma ClimbsPast(b: Board, from: nat, to: nat, node: NodeState, actions: seq<Action>, a: nat)
    requires Possible(CFG, b, Deliver(from, to)) && Climbs(b, Deliver(from, to), node, actions) && a < 4
    ensures Overtaken(b, from, to, a)
  {
  }

  lemma NotOvertaken(s: System, b: Board, from: nat, to: nat, a: nat, k: nat)
    requires Reachable(CFG, s) && Shows(CFG, s, b) && Ranked(s)
    requires from < 4 && to < 4 && a < 4 && Channel(b, from, to) != [] && k < |Channel(b, a, to)|
    requires Overtaken(b, from, to, a)
    ensures !HappensBefore(s, Channel(b, a, to)[k], Channel(b, from, to)[0])
  {
    ReachableInv(CFG, s);
    var m, m' := Channel(b, a, to)[k], Channel(b, from, to)[0];
    assert m in Channel(b, a, to);
    if HappensBefore(s, m, m') {
      HappensBeforeIsEarlier(CFG, s, m, m');
      RankGrows(s, m, m');
      var j := UnderWayWasSent(CFG, s, a, to, k);
      if a == from {
        HeadIsOldest(CFG, s, from, to, k);
      }
    }
  }

  /** A state that a run with causal delivery leads to. */
  ghost predicate CausalStage(s: System, b: Board) {
    Stage(CFG, s, b) && ChainDelivery(s) && Ranked(s)
  }

  lemma PlayCausal(s: System, b: Board, step: Step, node: NodeState, actions: seq<Action>, b': Board) returns (s': System)
    requires CausalStage(s, b) && Goes(CFG, b, step, node, actions, b') && Climbs(b, step, node, actions)
    ensures Enabled(CFG, s, step) && Raised(CFG, s, step) == EventOn(CFG, b, step) && s' == Next(CFG, s, step)
    ensures CausalStage(s', b') && Continues(s, s')
  {
    s' := Play(CFG, s, b, step, node, actions, b');
    RankedAfter(s, b, step, node, actions, b');
    if step.Deliver? {
      ClimbsInTurn(s, b, step.from, step.to, node, actions);
    }
    ChainKept(CFG, s, step);
  }

  // ---------- The processes, one event after the other ----------

  const NONE := [false, false, false, false]

  function Free(me: nat, clock: nat, queue: seq<Ticket>, led: nat): NodeState {
    NodeState(clock, Idle, queue, None, None, NONE, me * OFFSET + led)
  }

  function Waiting(me: nat, clock: nat, queue: seq<Ticket>, pending: Ticket, tracker: seq<bool>, led: nat): NodeState {
    NodeState(clock, WaitingForReplies, queue, None, Some(pending), tracker, me * OFFSET + led)
  }

  function Partying(me: nat, clock: nat, queue: seq<Ticket>, party: Party, led: nat): NodeState {
    NodeState(clock, InParty, queue, Some(party), None, NONE, me * OFFSET + led)
  }

  const Z0 := Free(Z, 0, [], 0)
  const Z1 := Waiting(Z, 1, [T_Z], T_Z, [true, false, false, false], 0)
  const Z2 := Waiting(Z, 3, [T_Z], T_Z, [true, true, false, false], 0)
  const Z3 := Waiting(Z, 4, [T_Z], T_Z, [true, true, true, false], 0)
  const Z4 := Waiting(Z, 5, [T_Z, T_L], T_Z, [true, true, true, false], 0)
  const Z5 := Waiting(Z, 6, [T_Z, T_L, T_M], T_Z, [true, true, true, false], 0)
  const Z6 := Partying(Z, 9, [], Party(Z, 9, [Z, L, M]), 1)
  const Z7 := Free(Z, 10, [], 1)
  const Z8 := Free(Z, 13, [T_M2], 1)
  const Z9 := Waiting(Z, 14, [T_M2, T_Z2], T_Z2, [true, false, false, false], 1)
  const Z10 := Waiting(Z, 15, [T_L2, T_M2, T_Z2], T_Z2, [true, false, false, false], 1)

  const L0 := Free(L, 0, [], 0)
  const L1 := Free(L, 2, [T_Z], 0)
  const L2 := Waiting(L, 3, [T_Z, T_L], T_L, [false, true, false, false], 0)
  const L3 := Waiting(L, 4, [T_Z, T_L, T_M], T_L, [false, true, false, false], 0)
  const L4 := Waiting(L, 6, [T_Z, T_L, T_M], T_L, [true, true, false, false], 0)
  const L5 := Partying(L, 10, [], Party(Z, 9, [Z, L, M]), 0)
  const L6 := Free(L, 11, [], 0)
  const L7 := Waiting(L, 12, [T_L2], T_L2, [false, true, false, false], 0)
  const L8 := Waiting(L, 13, [T_L2], T_L2, [false, true, true, false], 0)
  const L9 := Waiting(L, 14, [T_L2], T_L2, [false, true, true, true], 0)
  const L10 := Waiting(L, 15, [T_L2, T_M2], T_L2, [false, true, true, true], 0)
  const L11 := Waiting(L, 16, [T_L2, T_M2, T_Z2], T_L2, [false, true, true, true], 0)
  const L12 := Partying(L, 19, [], Party(L, OFFSET + 19, [L, M, Z]), 1)

  const M0 := Free(M, 0, [], 0)
  const M1 := Free(M, 2, [T_Z], 0)
  const M2 := Waiting(M, 3, [T_Z, T_M], T_M, [false, false, true, false], 0)
  const M3 := Waiting(M, 4, [T_Z, T_L, T_M], T_M, [false, false, true, false], 0)
  const M4 := Waiting(M, 7, [T_Z, T_L, T_M], T_M, [true, false, true, false], 0)
  const M5 := Partying(M, 10, [], Party(Z, 9, [Z, L, M]), 0)
  const M6 := Free(M, 11, [], 0)
  const M7 := Waiting(M, 12, [T_M2], T_M2, [false, false, true, false], 0)
  const M8 := Waiting(M, 13, [T_M2], T_M2, [false, false, true, true], 0)
  const M9 := Waiting(M, 14, [T_M2], T_M2, [true, false, true, true], 0)
  const M10 := Waiting(M, 15, [T_M2], T_M2, [true, false, true, true], 0)
  const M11 := Waiting(M, 16, [T_M2, T_Z2], T_M2, [true, false, true, true], 0)
  const M12 := Waiting(M, 17, [T_M2, T_Z2, T_Y], T_M2, [true, false, true, true], 0)
  const M13 := Partying(M, 20, [], Party(M, 2 * OFFSET + 20, [M, Z, Y]), 1)

  const Y0 := Free(Y, 0, [], 0)
  const Y1 := Free(Y, 2, [T_Z], 0)
  const Y2 := Free(Y, 4, [T_Z, T_L], 0)
  const Y3 := Free(Y, 5, [T_Z, T_L, T_M], 0)
  const Y4 := Free(Y, 10, [], 0)
  const Y5 := Free(Y, 13, [T_M2], 0)
  const Y6 := Free(Y, 15, [T_M2, T_Z2], 0)
  const Y7 := Waiting(Y, 16, [T_M2, T_Z2, T_Y], T_Y, [false, false, false, true], 0)

  lemma Trackers()
    ensures NoReplies(CFG) == NONE
    ensures NONE[Z := true] == [true, false, false, false]
    ensures NONE[L := true] == [false, true, false, false]
    ensures NONE[M := true] == [false, false, true, false]
    ensures NONE[Y := true] == [false, false, false, true]
    ensures [false, false, true, false][Z := true] == [true, false, true, false]
    ensures [false, false, true, false][Y := true] == [false, false, true, true]
    ensures [false, false, true, true][Z := true] == [true, false, true, true]
    ensures [false, true, false, false][Z := true] == [true, true, false, false]
    ensures [false, true, false, false][M := true] == [false, true, true, false]
    ensures [false, true, true, false][Y := true] == [false, true, true, true]
    ensures [false, true, true, true][Z := true] == [true, true, true, true]
    ensures [true, false, false, false][L := true] == [true, true, false, false]
    ensures [true, false, true, true][L := true] == [true, true, true, true]
    ensures [true, false, true, true][Y := true] == [true, false, true, true]
    ensures [true, true, false, false][M := true] == [true, true, true, false]
    ensures [true, true, true, false][Y := true] == [true, true, true, true]
  {
  }

  lemma ZHandles1()
    ensures Handled(CFG, Z, Z0, Local(WantParty), Z1, [Broadcast(REQ_Z)])
    ensures Handled(CFG, Z, Z1, Net(L, REPLY_L_TO_Z), Z2, [])
  {
    Trackers();
    EnqueueIs([], T_Z, [T_Z]);
  }

  lemma ZHandles3()
    ensures Handled(CFG, Z, Z2, Net(M, REPLY_M_TO_Z), Z3, [])
    ensures Handled(CFG, Z, Z3, Net(L, REQ_L), Z4, [Send(L, REPLY_Z_TO_L)])
  {
    Trackers();
    EnqueueIs([T_Z], T_L, [T_Z, T_L]);
    assert forall a: Action :: [a] + [] == [a];
  }

  lemma ZHandles5()
    ensures Handled(CFG, Z, Z4, Net(M, REQ_M), Z5, [Send(M, REPLY_Z_TO_M)])
  {
    Trackers();
    EnqueueIs([T_Z, T_L], T_M, [T_Z, T_L, T_M]);
    assert forall a: Action :: [a] + [] == [a];
  }

  lemma ZHandles6()
    ensures Handled(CFG, Z, Z5, Net(Y, REPLY_Y_TO_Z), Z6, [Notify(EnteredParty), Broadcast(PARTY_Z)])
  {
    Trackers();
    Leading(CFG, Z, Z5, Y, Ticket(Y, 2), T_Z);
    assert Pids([T_Z, T_L, T_M][..3]) == [Z, L, M];
    RemoveAllIs([T_Z, T_L, T_M], [Z, L, M], []);
  }

  lemma ZHandles7()
    ensures Handled(CFG, Z, Z6, Local(ReleaseParty), Z7, [Notify(ExitedParty)])
    ensures Handled(CFG, Z, Z7, Net(M, REQ_M2), Z8, [Send(M, REPLY_Z_TO_M2)])
  {
    Trackers();
    EnqueueIs([], T_M2, [T_M2]);
    assert forall a: Action :: [a] + [] == [a];
  }

  lemma ZHandles9()
    ensures Handled(CFG, Z, Z8, Local(WantParty), Z9, [Broadcast(REQ_Z2)])
    ensures Handled(CFG, Z, Z9, Net(L, REQ_L2), Z10, [Send(L, REPLY_Z_TO_L2)])
  {
    Trackers();
    EnqueueIs([T_M2], T_Z2, [T_M2, T_Z2]);
    EnqueueIs([T_M2, T_Z2], T_L2, [T_L2, T_M2, T_Z2]);
    assert forall a: Action :: [a] + [] == [a];
  }

  lemma LHandles1()
    ensures Handled(CFG, L, L0, Net(Z, REQ_Z), L1, [Send(Z, REPLY_L_TO_Z)])
    ensures Handled(CFG, L, L1, Local(WantParty), L2, [Broadcast(REQ_L)])
  {
    Trackers();
    EnqueueIs([], T_Z, [T_Z]);
    EnqueueIs([T_Z], T_L, [T_Z, T_L]);
    assert forall a: Action :: [a] + [] == [a];
  }

  lemma LHandles3()
    ensures Handled(CFG, L, L2, Net(M, REQ_M), L3, [Send(M, REPLY_L_TO_M)])
    ensures Handled(CFG, L, L3, Net(Z, REPLY_Z_TO_L), L4, [])
  {
    Trackers();
    EnqueueIs([T_Z, T_L], T_M, [T_Z, T_L, T_M]);
    assert forall a: Action :: [a] + [] == [a];
  }

  lemma LHandles5()
    ensures Handled(CFG, L, L4, Net(Z, PARTY_Z), L5, [Notify(EnteredParty)])
    ensures Handled(CFG, L, L5, Local(ReleaseParty), L6, [Notify(ExitedParty)])
  {
    Trackers();
    RemoveAllIs([T_Z, T_L, T_M], [Z, L, M], []);
    RemoveAllIs([], [Z, L, M], []);
  }

  lemma LHandles7()
    ensures Handled(CFG, L, L6, Local(WantParty), L7, [Broadcast(REQ_L2)])
    ensures Handled(CFG, L, L7, Net(M, REPLY_M_TO_L), L8, [])
  {
    Trackers();
    EnqueueIs([], T_L2, [T_L2]);
  }

  lemma LHandles9()
    ensures Handled(CFG, L, L8, Net(Y, REPLY_Y_TO_L), L9, [])
    ensures Handled(CFG, L, L9, Net(M, REQ_M2), L10, [Send(M, REPLY_L_TO_M2)])
  {
    Trackers();
    EnqueueIs([T_L2], T_M2, [T_L2, T_M2]);
    assert forall a: Action :: [a] + [] == [a];
  }

  lemma LHandles11()
    ensures Handled(CFG, L, L10, Net(Z, REQ_Z2), L11, [Send(Z, REPLY_L_TO_Z2)])
  {
    Trackers();
    EnqueueIs([T_L2, T_M2], T_Z2, [T_L2, T_M2, T_Z2]);
    assert forall a: Action :: [a] + [] == [a];
  }

  lemma LHandles12()
    ensures Handled(CFG, L, L11, Net(Z, REPLY_Z_TO_L2), L12, [Notify(EnteredParty), Broadcast(PARTY_L)])
  {
    Trackers();
    Leading(CFG, L, L11, Z, Ticket(Z, 15), T_L2);
    assert Pids([T_L2, T_M2, T_Z2][..3]) == [L, M, Z];
    RemoveAllIs([T_L2, T_M2, T_Z2], [L, M, Z], []);
  }

  lemma MHandles1()
    ensures Handled(CFG, M, M0, Net(Z, REQ_Z), M1, [Send(Z, REPLY_M_TO_Z)])
    ensures Handled(CFG, M, M1, Local(WantParty), M2, [Broadcast(REQ_M)])
  {
    Trackers();
    EnqueueIs([], T_Z, [T_Z]);
    EnqueueIs([T_Z], T_M, [T_Z, T_M]);
    assert forall a: Action :: [a] + [] == [a];
  }

  lemma MHandles3()
    ensures Handled(CFG, M, M2, Net(L, REQ_L), M3, [Send(L, REPLY_M_TO_L)])
    ensures Handled(CFG, M, M3, Net(Z, REPLY_Z_TO_M), M4, [])
  {
    Trackers();
    EnqueueIs([T_Z, T_M], T_L, [T_Z, T_L, T_M]);
    assert forall a: Action :: [a] + [] == [a];
  }

  lemma MHandles5()
    ensures Handled(CFG, M, M4, Net(Z, PARTY_Z), M5, [Notify(EnteredParty)])
    ensures Handled(CFG, M, M5, Local(ReleaseParty), M6, [Notify(ExitedParty)])
  {
    Trackers();
    RemoveAllIs([T_Z, T_L, T_M], [Z, L, M], []);
    RemoveAllIs([], [Z, L, M], []);
  }

  lemma MHandles7()
    ensures Handled(CFG, M, M6, Local(WantParty), M7, [Broadcast(REQ_M2)])
    ensures Handled(CFG, M, M7, Net(Y, REPLY_Y_TO_M), M8, [])
  {
    Trackers();
    EnqueueIs([], T_M2, [T_M2]);
  }

  lemma MHandles9()
    ensures Handled(CFG, M, M8, Net(Z, REPLY_Z_TO_M2), M9, [])
    ensures Handled(CFG, M, M9, Net(Y, REPLY_Y_TO_M2), M10, [])
  {
    Trackers();
  }

  lemma MHandles11()
    ensures Handled(CFG, M, M10, Net(Z, REQ_Z2), M11, [Send(Z, REPLY_M_TO_Z2)])
    ensures Handled(CFG, M, M11, Net(Y, REQ_Y), M12, [Send(Y, REPLY_M_TO_Y)])
  {
    Trackers();
    EnqueueIs([T_M2], T_Z2, [T_M2, T_Z2]);
    EnqueueIs([T_M2, T_Z2], T_Y, [T_M2, T_Z2, T_Y]);
    assert forall a: Action :: [a] + [] == [a];
  }

  lemma MHandles13()
    ensures Handled(CFG, M, M12, Net(L, REPLY_L_TO_M), M13, [Notify(EnteredParty), Broadcast(PARTY_M)])
  {
    Trackers();
    Leading(CFG, M, M12, L, Ticket(L, 4), T_M);
    assert Pids([T_M2, T_Z2, T_Y][..3]) == [M, Z, Y];
    RemoveAllIs([T_M2, T_Z2, T_Y], [M, Z, Y], []);
  }

  lemma YHandles1()
    ensures Handled(CFG, Y, Y0, Net(Z, REQ_Z), Y1, [Send(Z, REPLY_Y_TO_Z)])
    ensures Handled(CFG, Y, Y1, Net(L, REQ_L), Y2, [Send(L, REPLY_Y_TO_L)])
  {
    Trackers();
    EnqueueIs([], T_Z, [T_Z]);
    EnqueueIs([T_Z], T_L, [T_Z, T_L]);
    assert forall a: Action :: [a] + [] == [a];
  }

  lemma YHandles3()
    ensures Handled(CFG, Y, Y2, Net(M, REQ_M), Y3, [Send(M, REPLY_Y_TO_M)])
    ensures Handled(CFG, Y, Y3, Net(Z, PARTY_Z), Y4, [])
  {
    Trackers();
    EnqueueIs([T_Z, T_L], T_M, [T_Z, T_L, T_M]);
    RemoveAllIs([T_Z, T_L, T_M], [Z, L, M], []);
    assert forall a: Action :: [a] + [] == [a];
  }

  lemma YHandles5()
    ensures Handled(CFG, Y, Y4, Net(M, REQ_M2), Y5, [Send(M, REPLY_Y_TO_M2)])
    ensures Handled(CFG, Y, Y5, Net(Z, REQ_Z2), Y6, [Send(Z, REPLY_Y_TO_Z2)])
  {
    Trackers();
    EnqueueIs([], T_M2, [T_M2]);
    EnqueueIs([T_M2], T_Z2, [T_M2, T_Z2]);
    assert forall a: Action :: [a] + [] == [a];
  }

  lemma YHandles7()
    ensures Handled(CFG, Y, Y6, Local(WantParty), Y7, [Broadcast(REQ_Y)])
  {
    Trackers();
    EnqueueIs([T_M2, T_Z2], T_Y, [T_M2, T_Z2, T_Y]);
  }

  // ---------- The run ----------

  const EVERYBODY := {Z, L, M, Y}

  const AT0 := Board(Z0, L0, M0, Y0, NOTHING, NOTHING, NOTHING, NOTHING, EVERYBODY, EVERYBODY)
  const AT1 := AT0.(p0 := Z1, from0 := Row([], [REQ_Z], [REQ_Z], [REQ_Z]))
  const AT2 := AT1.(p1 := L1, from0 := Row([], [], [REQ_Z], [REQ_Z]), from1 := Row([REPLY_L_TO_Z], [], [], []))
  const AT3 := AT2.(p2 := M1, from0 := Row([], [], [], [REQ_Z]), from2 := Row([REPLY_M_TO_Z], [], [], []))
  const AT4 := AT3.(p3 := Y1, from0 := NOTHING, from3 := Row([REPLY_Y_TO_Z], [], [], []))
  const AT5 := AT4.(p1 := L2, from1 := Row([REPLY_L_TO_Z, REQ_L], [], [REQ_L], [REQ_L]))
  const AT6 := AT5.(p2 := M2, from2 := Row([REPLY_M_TO_Z, REQ_M], [REQ_M], [], [REQ_M]))
  const AT7 := AT6.(p2 := M3,
                      from1 := Row([REPLY_L_TO_Z, REQ_L], [], [], [REQ_L]),
                      from2 := Row([REPLY_M_TO_Z, REQ_M], [REQ_M, REPLY_M_TO_L], [], [REQ_M]))
  const AT8 := Board(Z1, L3, M3, Y1,
                      NOTHING,
                      Row([REPLY_L_TO_Z, REQ_L], [], [REPLY_L_TO_M], [REQ_L]),
                      Row([REPLY_M_TO_Z, REQ_M], [REPLY_M_TO_L], [], [REQ_M]),
                      Row([REPLY_Y_TO_Z], [], [], []),
                      EVERYBODY, EVERYBODY)
  const AT9 := AT8.(p0 := Z2, from1 := Row([REQ_L], [], [REPLY_L_TO_M], [REQ_L]))
  const AT10 := AT9.(p0 := Z3, from2 := Row([REQ_M], [REPLY_M_TO_L], [], [REQ_M]))
  const AT11 := AT10.(p0 := Z4,
                      from0 := Row([], [REPLY_Z_TO_L], [], []),
                      from1 := Row([], [], [REPLY_L_TO_M], [REQ_L]))
  const AT12 := AT11.(p0 := Z5,
                      from0 := Row([], [REPLY_Z_TO_L], [REPLY_Z_TO_M], []),
                      from2 := Row([], [REPLY_M_TO_L], [], [REQ_M]))
  const AT13 := AT12.(p3 := Y2,
                      from1 := Row([], [], [REPLY_L_TO_M], []),
                      from3 := Row([REPLY_Y_TO_Z], [REPLY_Y_TO_L], [], []))
  const AT14 := AT13.(p3 := Y3,
                      from2 := Row([], [REPLY_M_TO_L], [], []),
                      from3 := Row([REPLY_Y_TO_Z], [REPLY_Y_TO_L], [REPLY_Y_TO_M], []))
  const AT15 := Board(Z6, L3, M3, Y3,
                      Row([], [REPLY_Z_TO_L, PARTY_Z], [REPLY_Z_TO_M, PARTY_Z], [PARTY_Z]),
                      Row([], [], [REPLY_L_TO_M], []),
                      Row([], [REPLY_M_TO_L], [], []),
                      Row([], [REPLY_Y_TO_L], [REPLY_Y_TO_M], []),
                      EVERYBODY, EVERYBODY)
  const AT16 := AT15.(p1 := L4, from0 := Row([], [PARTY_Z], [REPLY_Z_TO_M, PARTY_Z], [PARTY_Z]))
  const AT17 := AT16.(p1 := L5, from0 := Row([], [], [REPLY_Z_TO_M, PARTY_Z], [PARTY_Z]))
  const AT18 := AT17.(p2 := M4, from0 := Row([], [], [PARTY_Z], [PARTY_Z]))
  const AT19 := AT18.(p2 := M5, from0 := Row([], [], [], [PARTY_Z]))
  const AT20 := Board(Z6, L5, M5, Y4,
                      NOTHING,
                      Row([], [], [REPLY_L_TO_M], []),
                      Row([], [REPLY_M_TO_L], [], []),
                      Row([], [REPLY_Y_TO_L], [REPLY_Y_TO_M], []),
                      EVERYBODY, EVERYBODY)
  const AT21 := AT20.(p0 := Z7)
  const AT22 := AT21.(p1 := L6)
  const AT23 := AT22.(p2 := M6)
  const AT24 := AT23.(p1 := L7, from1 := Row([REQ_L2], [], [REPLY_L_TO_M, REQ_L2], [REQ_L2]))
  const AT25 := AT24.(p1 := L8, from2 := NOTHING)
  const AT26 := Board(Z7, L9, M6, Y4,
                      NOTHING,
                      Row([REQ_L2], [], [REPLY_L_TO_M, REQ_L2], [REQ_L2]),
                      NOTHING,
                      Row([], [], [REPLY_Y_TO_M], []),
                      EVERYBODY, EVERYBODY)
  const AT27 := AT26.(p2 := M7, from2 := Row([REQ_M2], [REQ_M2], [], [REQ_M2]))
  const AT28 := AT27.(p2 := M8, from3 := NOTHING)
  const AT29 := AT28.(p0 := Z8, from0 := Row([], [], [REPLY_Z_TO_M2], []), from2 := Row([], [REQ_M2], [], [REQ_M2]))
  const AT30 := AT29.(p0 := Z9, from0 := Row([], [REQ_Z2], [REPLY_Z_TO_M2, REQ_Z2], [REQ_Z2]))
  const AT31 := AT30.(p3 := Y5, from2 := Row([], [REQ_M2], [], []), from3 := Row([], [], [REPLY_Y_TO_M2], []))
  const AT32 := AT31.(p3 := Y6,
                      from0 := Row([], [REQ_Z2], [REPLY_Z_TO_M2, REQ_Z2], []),
                      from3 := Row([REPLY_Y_TO_Z2], [], [REPLY_Y_TO_M2], []))
  const AT33 := Board(Z9, L9, M8, Y7,
                      Row([], [REQ_Z2], [REPLY_Z_TO_M2, REQ_Z2], []),
                      Row([REQ_L2], [], [REPLY_L_TO_M, REQ_L2], [REQ_L2]),
                      Row([], [REQ_M2], [], []),
                      Row([REPLY_Y_TO_Z2, REQ_Y], [REQ_Y], [REPLY_Y_TO_M2, REQ_Y], []),
                      EVERYBODY, EVERYBODY)
  const AT34 := AT33.(p2 := M9, from0 := Row([], [REQ_Z2], [REQ_Z2], []))
  const AT35 := AT34.(p2 := M10, from3 := Row([REPLY_Y_TO_Z2, REQ_Y], [REQ_Y], [REQ_Y], []))
  const AT36 := AT35.(p2 := M11, from0 := Row([], [REQ_Z2], [], []), from2 := Row([REPLY_M_TO_Z2], [REQ_M2], [], []))
  const AT37 := AT36.(p2 := M12,
                      from2 := Row([REPLY_M_TO_Z2], [REQ_M2], [], [REPLY_M_TO_Y]),
                      from3 := Row([REPLY_Y_TO_Z2, REQ_Y], [REQ_Y], [], []))
  const AT38 := AT37.(p0 := Z10,
                      from0 := Row([], [REQ_Z2, REPLY_Z_TO_L2], [], []),
                      from1 := Row([], [], [REPLY_L_TO_M, REQ_L2], [REQ_L2]))
  const AT39 := AT38.(p1 := L10,
                      from1 := Row([], [], [REPLY_L_TO_M, REQ_L2, REPLY_L_TO_M2], [REQ_L2]),
                      from2 := Row([REPLY_M_TO_Z2], [], [], [REPLY_M_TO_Y]))
  const AT40 := AT39.(p1 := L11,
                      from0 := Row([], [REPLY_Z_TO_L2], [], []),
                      from1 := Row([REPLY_L_TO_Z2], [], [REPLY_L_TO_M, REQ_L2, REPLY_L_TO_M2], [REQ_L2]))
  const AT41 := AT40.(p2 := M13,
                      from1 := Row([REPLY_L_TO_Z2], [], [REQ_L2, REPLY_L_TO_M2], [REQ_L2]),
                      from2 := Row([REPLY_M_TO_Z2, PARTY_M], [PARTY_M], [], [REPLY_M_TO_Y, PARTY_M]))
  const AT42 := AT41.(p1 := L12,
                      from0 := NOTHING,
                      from1 := Row([REPLY_L_TO_Z2, PARTY_L], [], [REQ_L2, REPLY_L_TO_M2, PARTY_L], [REQ_L2, PARTY_L]))

  lemma Turns1()
    ensures Turn(CFG, AT0, Want(Z), Z1, [Broadcast(REQ_Z)], AT1)
    ensures Turn(CFG, AT1, Deliver(Z, L), L1, [Send(Z, REPLY_L_TO_Z)], AT2)
  {
  }

  lemma Turns2()
    ensures Turn(CFG, AT2, Deliver(Z, M), M1, [Send(Z, REPLY_M_TO_Z)], AT3)
    ensures Turn(CFG, AT3, Deliver(Z, Y), Y1, [Send(Z, REPLY_Y_TO_Z)], AT4)
  {
  }

  lemma Turns3()
    ensures Turn(CFG, AT4, Want(L), L2, [Broadcast(REQ_L)], AT5)
    ensures Turn(CFG, AT5, Want(M), M2, [Broadcast(REQ_M)], AT6)
  {
  }

  lemma Turns4()
    ensures Turn(CFG, AT6, Deliver(L, M), M3, [Send(L, REPLY_M_TO_L)], AT7)
  {
  }

  lemma Turns5()
    ensures Turn(CFG, AT7, Deliver(M, L), L3, [Send(M, REPLY_L_TO_M)], AT8)
  {
  }

  lemma Turns6()
    ensures Turn(CFG, AT8, Deliver(L, Z), Z2, [], AT9)
    ensures Turn(CFG, AT9, Deliver(M, Z), Z3, [], AT10)
  {
  }

  lemma Turns7()
    ensures Turn(CFG, AT10, Deliver(L, Z), Z4, [Send(L, REPLY_Z_TO_L)], AT11)
    ensures Turn(CFG, AT11, Deliver(M, Z), Z5, [Send(M, REPLY_Z_TO_M)], AT12)
  {
  }

  lemma Turns8()
    ensures Turn(CFG, AT12, Deliver(L, Y), Y2, [Send(L, REPLY_Y_TO_L)], AT13)
    ensures Turn(CFG, AT13, Deliver(M, Y), Y3, [Send(M, REPLY_Y_TO_M)], AT14)
  {
  }

  lemma Turns9()
    ensures Turn(CFG, AT14, Deliver(Y, Z), Z6, [Notify(EnteredParty), Broadcast(PARTY_Z)], AT15)
  {
  }

  lemma Turns10()
    ensures Turn(CFG, AT15, Deliver(Z, L), L4, [], AT16)
    ensures Turn(CFG, AT16, Deliver(Z, L), L5, [Notify(EnteredParty)], AT17)
  {
  }

  lemma Turns11()
    ensures Turn(CFG, AT17, Deliver(Z, M), M4, [], AT18)
    ensures Turn(CFG, AT18, Deliver(Z, M), M5, [Notify(EnteredParty)], AT19)
  {
  }

  lemma Turns12()
    ensures Turn(CFG, AT19, Deliver(Z, Y), Y4, [], AT20)
    ensures Turn(CFG, AT20, Release(Z), Z7, [Notify(ExitedParty)], AT21)
  {
  }

  lemma Turns13()
    ensures Turn(CFG, AT21, Release(L), L6, [Notify(ExitedParty)], AT22)
    ensures Turn(CFG, AT22, Release(M), M6, [Notify(ExitedParty)], AT23)
  {
  }

  lemma Turns14()
    ensures Turn(CFG, AT23, Want(L), L7, [Broadcast(REQ_L2)], AT24)
    ensures Turn(CFG, AT24, Deliver(M, L), L8, [], AT25)
  {
  }

  lemma Turns15()
    ensures Turn(CFG, AT25, Deliver(Y, L), L9, [], AT26)
    ensures Turn(CFG, AT26, Want(M), M7, [Broadcast(REQ_M2)], AT27)
  {
  }

  lemma Turns16()
    ensures Turn(CFG, AT27, Deliver(Y, M), M8, [], AT28)
    ensures Turn(CFG, AT28, Deliver(M, Z), Z8, [Send(M, REPLY_Z_TO_M2)], AT29)
  {
  }

  lemma Turns17()
    ensures Turn(CFG, AT29, Want(Z), Z9, [Broadcast(REQ_Z2)], AT30)
    ensures Turn(CFG, AT30, Deliver(M, Y), Y5, [Send(M, REPLY_Y_TO_M2)], AT31)
  {
  }

  lemma Turns18()
    ensures Turn(CFG, AT31, Deliver(Z, Y), Y6, [Send(Z, REPLY_Y_TO_Z2)], AT32)
    ensures Turn(CFG, AT32, Want(Y), Y7, [Broadcast(REQ_Y)], AT33)
  {
  }

  lemma Turns19()
    ensures Turn(CFG, AT33, Deliver(Z, M), M9, [], AT34)
    ensures Turn(CFG, AT34, Deliver(Y, M), M10, [], AT35)
  {
  }

  lemma Turns20()
    ensures Turn(CFG, AT35, Deliver(Z, M), M11, [Send(Z, REPLY_M_TO_Z2)], AT36)
    ensures Turn(CFG, AT36, Deliver(Y, M), M12, [Send(Y, REPLY_M_TO_Y)], AT37)
  {
  }

  lemma Turns21()
    ensures Turn(CFG, AT37, Deliver(L, Z), Z10, [Send(L, REPLY_Z_TO_L2)], AT38)
    ensures Turn(CFG, AT38, Deliver(M, L), L10, [Send(M, REPLY_L_TO_M2)], AT39)
  {
  }

  lemma Turns22()
    ensures Turn(CFG, AT39, Deliver(Z, L), L11, [Send(Z, REPLY_L_TO_Z2)], AT40)
    ensures Turn(CFG, AT40, Deliver(L, M), M13, [Notify(EnteredParty), Broadcast(PARTY_M)], AT41)
  {
  }

  lemma Turns23()
    ensures Turn(CFG, AT41, Deliver(Z, L), L12, [Notify(EnteredParty), Broadcast(PARTY_L)], AT42)
  {
  }

  // The same steps once more, for the ranks.

  lemma Climbs1()
    ensures Climbs(AT0, Want(Z), Z1, [Broadcast(REQ_Z)])
    ensures Climbs(AT1, Deliver(Z, L), L1, [Send(Z, REPLY_L_TO_Z)])
  {
  }

  lemma Climbs2()
    ensures Climbs(AT2, Deliver(Z, M), M1, [Send(Z, REPLY_M_TO_Z)])
    ensures Climbs(AT3, Deliver(Z, Y), Y1, [Send(Z, REPLY_Y_TO_Z)])
  {
  }

  lemma Climbs3()
    ensures Climbs(AT4, Want(L), L2, [Broadcast(REQ_L)])
    ensures Climbs(AT5, Want(M), M2, [Broadcast(REQ_M)])
  {
  }

  lemma Climbs4()
    ensures Climbs(AT6, Deliver(L, M), M3, [Send(L, REPLY_M_TO_L)])
    ensures Climbs(AT7, Deliver(M, L), L3, [Send(M, REPLY_L_TO_M)])
  {
  }

  lemma Climbs5()
    ensures Climbs(AT8, Deliver(L, Z), Z2, [])
    ensures Climbs(AT9, Deliver(M, Z), Z3, [])
  {
  }

  lemma Climbs6()
    ensures Climbs(AT10, Deliver(L, Z), Z4, [Send(L, REPLY_Z_TO_L)])
    ensures Climbs(AT11, Deliver(M, Z), Z5, [Send(M, REPLY_Z_TO_M)])
  {
  }

  lemma Climbs7()
    ensures Climbs(AT12, Deliver(L, Y), Y2, [Send(L, REPLY_Y_TO_L)])
    ensures Climbs(AT13, Deliver(M, Y), Y3, [Send(M, REPLY_Y_TO_M)])
  {
  }

  lemma Climbs8()
    ensures Climbs(AT14, Deliver(Y, Z), Z6, [Notify(EnteredParty), Broadcast(PARTY_Z)])
    ensures Climbs(AT15, Deliver(Z, L), L4, [])
  {
  }

  lemma Climbs9()
    ensures Climbs(AT16, Deliver(Z, L), L5, [Notify(EnteredParty)])
    ensures Climbs(AT17, Deliver(Z, M), M4, [])
  {
  }

  lemma Climbs10()
    ensures Climbs(AT18, Deliver(Z, M), M5, [Notify(EnteredParty)])
    ensures Climbs(AT19, Deliver(Z, Y), Y4, [])
  {
  }

  lemma Climbs11()
    ensures Climbs(AT20, Release(Z), Z7, [Notify(ExitedParty)])
    ensures Climbs(AT21, Release(L), L6, [Notify(ExitedParty)])
  {
  }

  lemma Climbs12()
    ensures Climbs(AT22, Release(M), M6, [Notify(ExitedParty)])
    ensures Climbs(AT23, Want(L), L7, [Broadcast(REQ_L2)])
  {
  }

  lemma Climbs13()
    ensures Climbs(AT24, Deliver(M, L), L8, [])
    ensures Climbs(AT25, Deliver(Y, L), L9, [])
  {
  }

  lemma Climbs14()
    ensures Climbs(AT26, Want(M), M7, [Broadcast(REQ_M2)])
    ensures Climbs(AT27, Deliver(Y, M), M8, [])
  {
  }

  lemma Climbs15()
    ensures Climbs(AT28, Deliver(M, Z), Z8, [Send(M, REPLY_Z_TO_M2)])
    ensures Climbs(AT29, Want(Z), Z9, [Broadcast(REQ_Z2)])
  {
  }

  lemma Climbs16()
    ensures Climbs(AT30, Deliver(M, Y), Y5, [Send(M, REPLY_Y_TO_M2)])
    ensures Climbs(AT31, Deliver(Z, Y), Y6, [Send(Z, REPLY_Y_TO_Z2)])
  {
  }

  lemma Climbs17()
    ensures Climbs(AT32, Want(Y), Y7, [Broadcast(REQ_Y)])
    ensures Climbs(AT33, Deliver(Z, M), M9, [])
  {
  }

  lemma Climbs18()
    ensures Climbs(AT34, Deliver(Y, M), M10, [])
    ensures Climbs(AT35, Deliver(Z, M), M11, [Send(Z, REPLY_M_TO_Z2)])
  {
  }

  lemma Climbs19()
    ensures Climbs(AT36, Deliver(Y, M), M12, [Send(Y, REPLY_M_TO_Y)])
    ensures Climbs(AT37, Deliver(L, Z), Z10, [Send(L, REPLY_Z_TO_L2)])
  {
  }

  lemma Climbs20()
    ensures Climbs(AT38, Deliver(M, L), L10, [Send(M, REPLY_L_TO_M2)])
    ensures Climbs(AT39, Deliver(Z, L), L11, [Send(Z, REPLY_L_TO_Z2)])
  {
  }

  lemma Climbs21()
    ensures Climbs(AT40, Deliver(L, M), M13, [Notify(EnteredParty), Broadcast(PARTY_M)])
    ensures Climbs(AT41, Deliver(Z, L), L12, [Notify(EnteredParty), Broadcast(PARTY_L)])
  {
  }

  /** Z asks, and everybody has heard of it. */
  lemma Part1(s: System) returns (s': System)
    requires CausalStage(s, AT0)
    ensures CausalStage(s', AT4)
  {
    LHandles1();
    MHandles1();
    YHandles1();
    ZHandles1();
    Turns1();
    Turns2();
    Climbs1();
    Climbs2();
    s' := s;
    s' := PlayCausal(s', AT0, Want(Z), Z1, [Broadcast(REQ_Z)], AT1);
    s' := PlayCausal(s', AT1, Deliver(Z, L), L1, [Send(Z, REPLY_L_TO_Z)], AT2);
    s' := PlayCausal(s', AT2, Deliver(Z, M), M1, [Send(Z, REPLY_M_TO_Z)], AT3);
    s' := PlayCausal(s', AT3, Deliver(Z, Y), Y1, [Send(Z, REPLY_Y_TO_Z)], AT4);
  }

  /** L and M ask, and answer each other; these two answers stay under way. */
  lemma Part2(s: System) returns (s': System)
    requires CausalStage(s, AT4)
    ensures CausalStage(s', AT8)
  {
    LHandles1();
    LHandles3();
    MHandles1();
    MHandles3();
    Turns3();
    Turns4();
    Turns5();
    Climbs3();
    Climbs4();
    s' := s;
    s' := PlayCausal(s', AT4, Want(L), L2, [Broadcast(REQ_L)], AT5);
    s' := PlayCausal(s', AT5, Want(M), M2, [Broadcast(REQ_M)], AT6);
    s' := PlayCausal(s', AT6, Deliver(L, M), M3, [Send(L, REPLY_M_TO_L)], AT7);
    s' := PlayCausal(s', AT7, Deliver(M, L), L3, [Send(M, REPLY_L_TO_M)], AT8);
  }

  /** Z takes in the answers of L and M, and their requests. */
  lemma Part3(s: System) returns (s': System)
    requires CausalStage(s, AT8)
    ensures CausalStage(s', AT12)
  {
    ZHandles1();
    ZHandles3();
    ZHandles5();
    Turns6();
    Turns7();
    Climbs5();
    Climbs6();
    s' := s;
    s' := PlayCausal(s', AT8, Deliver(L, Z), Z2, [], AT9);
    s' := PlayCausal(s', AT9, Deliver(M, Z), Z3, [], AT10);
    s' := PlayCausal(s', AT10, Deliver(L, Z), Z4, [Send(L, REPLY_Z_TO_L)], AT11);
    s' := PlayCausal(s', AT11, Deliver(M, Z), Z5, [Send(M, REPLY_Z_TO_M)], AT12);
  }

  /** Y answers L and M, and Z leads: its party is Z, L and M. */
  lemma Part4(s: System) returns (s': System)
    requires CausalStage(s, AT12)
    ensures CausalStage(s', AT15)
  {
    YHandles1();
    YHandles3();
    ZHandles6();
    Turns8();
    Turns9();
    Climbs7();
    Climbs8();
    s' := s;
    s' := PlayCausal(s', AT12, Deliver(L, Y), Y2, [Send(L, REPLY_Y_TO_L)], AT13);
    s' := PlayCausal(s', AT13, Deliver(M, Y), Y3, [Send(M, REPLY_Y_TO_M)], AT14);
    s' := PlayCausal(s', AT14, Deliver(Y, Z), Z6, [Notify(EnteredParty), Broadcast(PARTY_Z)], AT15);
  }

  /** The party start is seen by everybody. */
  lemma Part5(s: System) returns (s': System)
    requires CausalStage(s, AT15)
    ensures CausalStage(s', AT20)
  {
    LHandles3();
    LHandles5();
    MHandles3();
    MHandles5();
    YHandles3();
    Turns10();
    Turns11();
    Turns12();
    Climbs8();
    Climbs9();
    Climbs10();
    s' := s;
    s' := PlayCausal(s', AT15, Deliver(Z, L), L4, [], AT16);
    s' := PlayCausal(s', AT16, Deliver(Z, L), L5, [Notify(EnteredParty)], AT17);
    s' := PlayCausal(s', AT17, Deliver(Z, M), M4, [], AT18);
    s' := PlayCausal(s', AT18, Deliver(Z, M), M5, [Notify(EnteredParty)], AT19);
    s' := PlayCausal(s', AT19, Deliver(Z, Y), Y4, [], AT20);
  }

  /** The party is over. */
  lemma Part6(s: System) returns (s': System)
    requires CausalStage(s, AT20)
    ensures CausalStage(s', AT23)
  {
    LHandles5();
    MHandles5();
    ZHandles7();
    Turns12();
    Turns13();
    Climbs11();
    Climbs12();
    s' := s;
    s' := PlayCausal(s', AT20, Release(Z), Z7, [Notify(ExitedParty)], AT21);
    s' := PlayCausal(s', AT21, Release(L), L6, [Notify(ExitedParty)], AT22);
    s' := PlayCausal(s', AT22, Release(M), M6, [Notify(ExitedParty)], AT23);
  }

  /** L asks again, and counts the first answers of M and Y. */
  lemma Part7(s: System) returns (s': System)
    requires CausalStage(s, AT23)
    ensures CausalStage(s', AT26)
  {
    LHandles7();
    LHandles9();
    Turns14();
    Turns15();
    Climbs12();
    Climbs13();
    s' := s;
    s' := PlayCausal(s', AT23, Want(L), L7, [Broadcast(REQ_L2)], AT24);
    s' := PlayCausal(s', AT24, Deliver(M, L), L8, [], AT25);
    s' := PlayCausal(s', AT25, Deliver(Y, L), L9, [], AT26);
  }

  /** M asks again, and counts the first answer of Y; Z hears of it, and asks. */
  lemma Part8(s: System) returns (s': System)
    requires CausalStage(s, AT26)
    ensures CausalStage(s', AT30)
  {
    MHandles7();
    ZHandles7();
    ZHandles9();
    Turns15();
    Turns16();
    Turns17();
    Climbs14();
    Climbs15();
    s' := s;
    s' := PlayCausal(s', AT26, Want(M), M7, [Broadcast(REQ_M2)], AT27);
    s' := PlayCausal(s', AT27, Deliver(Y, M), M8, [], AT28);
    s' := PlayCausal(s', AT28, Deliver(M, Z), Z8, [Send(M, REPLY_Z_TO_M2)], AT29);
    s' := PlayCausal(s', AT29, Want(Z), Z9, [Broadcast(REQ_Z2)], AT30);
  }

  /** Y hears of M's and Z's second requests, and asks. */
  lemma Part9(s: System) returns (s': System)
    requires CausalStage(s, AT30)
    ensures CausalStage(s', AT33)
  {
    YHandles5();
    YHandles7();
    Turns17();
    Turns18();
    Climbs16();
    Climbs17();
    s' := s;
    s' := PlayCausal(s', AT30, Deliver(M, Y), Y5, [Send(M, REPLY_Y_TO_M2)], AT31);
    s' := PlayCausal(s', AT31, Deliver(Z, Y), Y6, [Send(Z, REPLY_Y_TO_Z2)], AT32);
    s' := PlayCausal(s', AT32, Want(Y), Y7, [Broadcast(REQ_Y)], AT33);
  }

  /** M takes in the answers and the requests of Z and Y. */
  lemma Part10(s: System) returns (s': System)
    requires CausalStage(s, AT33)
    ensures CausalStage(s', AT37)
  {
    MHandles11();
    MHandles9();
    Turns19();
    Turns20();
    Climbs17();
    Climbs18();
    Climbs19();
    s' := s;
    s' := PlayCausal(s', AT33, Deliver(Z, M), M9, [], AT34);
    s' := PlayCausal(s', AT34, Deliver(Y, M), M10, [], AT35);
    s' := PlayCausal(s', AT35, Deliver(Z, M), M11, [Send(Z, REPLY_M_TO_Z2)], AT36);
    s' := PlayCausal(s', AT36, Deliver(Y, M), M12, [Send(Y, REPLY_M_TO_Y)], AT37);
  }

  /** Z answers L's second request, and L hears of those of M and Z. */
  lemma Part11(s: System) returns (s': System)
    requires CausalStage(s, AT37)
    ensures CausalStage(s', AT40)
  {
    LHandles11();
    LHandles9();
    ZHandles9();
    Turns21();
    Turns22();
    Climbs19();
    Climbs20();
    s' := s;
    s' := PlayCausal(s', AT37, Deliver(L, Z), Z10, [Send(L, REPLY_Z_TO_L2)], AT38);
    s' := PlayCausal(s', AT38, Deliver(M, L), L10, [Send(M, REPLY_L_TO_M2)], AT39);
    s' := PlayCausal(s', AT39, Deliver(Z, L), L11, [Send(Z, REPLY_L_TO_Z2)], AT40);
  }

  /** M leads on its second request, which L's stale reply has completed. */
  lemma MLeads(s: System) returns (s': System, j: nat)
    requires CausalStage(s, AT40)
    ensures CausalStage(s', AT41) && Serves(s', M, j, T_Z2) && PartyOf(s', M, j) == PARTY_M
  {
    MHandles13();
    Turns22();
    Climbs21();
    s' := PlayCausal(s, AT40, Deliver(L, M), M13, [Notify(EnteredParty), Broadcast(PARTY_M)], AT41);
    j := LedOnReply(s, Deliver(L, M), PARTY_M, T_Z2);
  }

  /** L leads on its second request, for which it has counted two stale replies. */
  lemma LLeads(s: System) returns (s': System, j: nat)
    requires CausalStage(s, AT41)
    ensures CausalStage(s', AT42) && Continues(s, s') && Serves(s', L, j, T_Z2) && PartyOf(s', L, j) == PARTY_L
  {
    LHandles12();
    Turns23();
    Climbs21();
    s' := PlayCausal(s, AT41, Deliver(Z, L), L12, [Notify(EnteredParty), Broadcast(PARTY_L)], AT42);
    j := LedOnReply(s, Deliver(Z, L), PARTY_L, T_Z2);
  }

  /** A party started when a reply comes in serves the members' tickets in the queue of that moment. */
  lemma LedOnReply(s: System, step: Step, ps: Message, x: Ticket) returns (j: nat)
    requires Reachable(CFG, s) && Enabled(CFG, s, step) && step.Deliver? && Raised(CFG, s, step).msg.Reply? && ps.PartyStart?
    requires Handles(CFG, step.to, s[step.to].node, Raised(CFG, s, step))
    requires NodeStep(CFG, step.to, s[step.to].node, Raised(CFG, s, step)).1 == [Notify(EnteredParty), Broadcast(ps)]
    requires x in s[step.to].node.queue && x.pid in ps.participants
    ensures Serves(Next(CFG, s, step), step.to, j, x) && PartyOf(Next(CFG, s, step), step.to, j) == ps
  {
    ReachableInv(CFG, s);
    var actions := StepTraces(CFG, s, step);
    j := |s[step.to].trace| + 2;
    QueueAtTheStart(step.to, s[step.to].trace, Raised(CFG, s, step), ps);
  }

  lemma QueueAtTheStart(me: nat, tr: seq<Entry>, ev: Event, ps: Message)
    requires ev.Net? && ev.msg.Reply?
    ensures var tr' := tr + [In(ev)] + Outs([Notify(EnteredParty), Broadcast(ps)]);
            && |tr'| == |tr| + 3 && tr'[|tr| + 2] == Out(Broadcast(ps))
            && Traces.SummaryOf(me, tr'[..|tr| + 2]).queue == Traces.SummaryOf(me, tr).queue
  {
    var tr' := tr + [In(ev)] + Outs([Notify(EnteredParty), Broadcast(ps)]);
    assert tr'[..|tr| + 2] == tr + [In(ev)] + [Out(Notify(EnteredParty))];
    Traces.AfterSnoc(me, Traces.Blank(), tr, In(ev));
    Traces.AfterSnoc(me, Traces.Blank(), tr + [In(ev)], Out(Notify(EnteredParty)));
  }

  lemma ServedStays(s: System, s': System, l: nat, j: nat, x: Ticket)
    requires Continues(s, s') && Serves(s, l, j, x)
    ensures Serves(s', l, j, x) && PartyOf(s', l, j) == PartyOf(s, l, j)
  {
    assert s'[l].trace[..j] == s[l].trace[..j];
  }

  /** Causal delivery, even along chains, does not keep parties apart once processes ask again: two
      leaders serve the same ticket. What is missing is that the replies counted answer the request. */
  lemma StaleRepliesServeTwice()
    ensures Supported(CFG)
    ensures exists s, j, j' :: Reachable(CFG, s) && ChainDelivery(s) && CausalDelivery(s) && DoublyServed(s, j, j')
                               && !FairStarts(s) && !NoStaleReply(s)
  {
    var s, j, j' := TwoLead();
    NotFair(s, j, j');
    ChainIsCausal(s);
  }

  ghost predicate DoublyServed(s: System, j: nat, j': nat) {
    Serves(s, L, j, T_Z2) && Serves(s, M, j', T_Z2)
  }

  lemma TwoLead() returns (s: System, j: nat, j': nat)
    ensures Reachable(CFG, s) && ChainDelivery(s) && DoublyServed(s, j, j')
  {
    s := Start(CFG, AT0);
    NothingYet(s);
    s := Part1(s);
    s := Part2(s);
    s := Part3(s);
    s := Part4(s);
    s := Part5(s);
    s := Part6(s);
    s := Part7(s);
    s := Part8(s);
    s := Part9(s);
    s := Part10(s);
    s := Part11(s);
    var s0 := s;
    s0, j' := MLeads(s);
    s, j := LLeads(s0);
    ServedStays(s0, s, M, j', T_Z2);
  }

  lemma NothingYet(s: System)
    requires Stage(CFG, s, AT0) && forall p :: 0 <= p < |s| ==> s[p].trace == []
    ensures CausalStage(s, AT0)
  {
  }

  lemma NotFair(s: System, j: nat, j': nat)
    requires Reachable(CFG, s) && ChainDelivery(s) && DoublyServed(s, j, j')
    ensures !FairStarts(s) && !NoStaleReply(s)
  {
    ReachableInv(CFG, s);
    ChainIsCausal(s);
    if FairStarts(s) {
      ServedOnce(CFG, s, T_Z2, L, j, M, j');
    }
    if NoStaleReply(s) {
      UnstaleStarts(CFG, s);
    }
  }
}
