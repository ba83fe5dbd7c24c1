/** Concrete runs of up to four hares, played on a board: what each process is like, and what is under
    way on each channel. A step that follows the rules on the board is a step of the system. */
module Boards {
  import opened Types
  import opened Queue
  import opened Policy
  import opened NodeModel
  import opened Process
  import opened Network
  import opened Ordering
  import opened Leaders
  import Clock
  import Traces
  import Causality
  import Termination

  // ---------- A board ----------

  datatype Row = Row(to0: seq<Message>, to1: seq<Message>, to2: seq<Message>, to3: seq<Message>)

  /** `asked` holds everyone who may have asked by now, `again` everyone who may have asked twice. */
  datatype Board = Board(p0: NodeState, p1: NodeState, p2: NodeState, p3: NodeState,
                         from0: Row, from1: Row, from2: Row, from3: Row,
                         asked: set<nat>, again: set<nat>)

  const NOTHING := Row([], [], [], [])

  function NodeOf(b: Board, p: nat): NodeState {
    if p == 0 then b.p0 else if p == 1 then b.p1 else if p == 2 then b.p2 else b.p3
  }

  function RowOf(b: Board, p: nat): Row {
    if p == 0 then b.from0 else if p == 1 then b.from1 else if p == 2 then b.from2 else b.from3
  }

  function To(r: Row, q: nat): seq<Message> {
    if q == 0 then r.to0 else if q == 1 then r.to1 else if q == 2 then r.to2 else r.to3
  }

  function Channel(b: Board, p: nat, q: nat): seq<Message> {
    To(RowOf(b, p), q)
  }

  ghost predicate Shows(c: Config, s: System, b: Board) {
    && c.worldSize <= 4 && Shaped(c, s)
    && forall p: nat :: p < c.worldSize ==>
         s[p].node == NodeOf(b, p) && forall q: nat :: q < c.worldSize ==> s[p].out[q] == Channel(b, p, q)
  }

  ghost predicate OnlyAsked(s: System, asked: set<nat>, again: set<nat>) {
    forall p: nat :: p < |s| ==>
      && (p !in asked ==> Termination.AskCount(s[p].trace) == 0)
      && (p !in again ==> Termination.AskCount(s[p].trace) <= 1)
  }

  /** A state that some run leads to, and what it looks like. */
  ghost predicate Stage(c: Config, s: System, b: Board)
    requires c.bearWeight > 0
  {
    Reachable(c, s) && Shows(c, s, b) && OnlyAsked(s, b.asked, b.again)
  }

  // ---------- One step on the board ----------

  predicate Possible(c: Config, b: Board, step: Step) {
    match step
    case Deliver(from, to) => from < c.worldSize && to < c.worldSize && from != to && Channel(b, from, to) != []
    case Want(p) => p < c.worldSize && NodeOf(b, p).state.Idle?
    case Release(p) => p < c.worldSize && NodeOf(b, p).state.InParty?
  }

  function EventOn(c: Config, b: Board, step: Step): Event
    requires Possible(c, b, step)
  {
    match step
    case Deliver(from, to) => Net(from, Channel(b, from, to)[0])
    case Want(_) => Local(WantParty)
    case Release(_) => Local(ReleaseParty)
  }

  function Emitted(c: Config, me: nat, actions: seq<Action>, q: nat): seq<Message>
    requires |actions| <= 2
  {
    if q >= c.worldSize || |actions| == 0 then []
    else if |actions| == 1 then Posted(me, actions[0], q)
    else Posted(me, actions[0], q) + Posted(me, actions[1], q)
  }

  predicate Moves(c: Config, b: Board, b': Board, p: nat, q: nat, step: Step, actions: seq<Action>)
    requires |actions| <= 2
  {
    if step == Deliver(p, q) && Channel(b, p, q) != [] then Channel(b', p, q) == Channel(b, p, q)[1..]
    else Channel(b', p, q) == Channel(b, p, q) + Emitted(c, p, actions, q)
  }

  /** Row by row: the actor sends, the sender of a delivered message loses it, the others rest. */
  predicate RowMoves(c: Config, b: Board, b': Board, p: nat, step: Step, node: NodeState, actions: seq<Action>)
    requires |actions| <= 2
  {
    if p == Actor(step) then
      && NodeOf(b', p) == node
      && Moves(c, b, b', p, 0, step, actions) && Moves(c, b, b', p, 1, step, actions)
      && Moves(c, b, b', p, 2, step, actions) && Moves(c, b, b', p, 3, step, actions)
    else if step.Deliver? && p == step.from then
      && NodeOf(b', p) == NodeOf(b, p)
      && Moves(c, b, b', p, 0, step, []) && Moves(c, b, b', p, 1, step, [])
      && Moves(c, b, b', p, 2, step, []) && Moves(c, b, b', p, 3, step, [])
    else
      NodeOf(b', p) == NodeOf(b, p) && RowOf(b', p) == RowOf(b, p)
  }

  /** What a step does to the board, given what its actor becomes and does. */
  predicate Turn(c: Config, b: Board, step: Step, node: NodeState, actions: seq<Action>, b': Board) {
    && Possible(c, b, step) && |actions| <= 2
    && RowMoves(c, b, b', 0, step, node, actions) && RowMoves(c, b, b', 1, step, node, actions)
    && RowMoves(c, b, b', 2, step, node, actions) && RowMoves(c, b, b', 3, step, node, actions)
    && Counted(b, step, b')
  }

  predicate Counted(b: Board, step: Step, b': Board) {
    && b.asked <= b'.asked && b.again <= b'.again
    && (step.Want? ==> step.who in b'.asked && (step.who in b.asked ==> step.who in b'.again))
  }

  predicate Handled(c: Config, p: nat, before: NodeState, ev: Event, node: NodeState, actions: seq<Action>) {
    Handles(c, p, before, ev) && NodeStep(c, p, before, ev) == (node, actions)
  }

  predicate Goes(c: Config, b: Board, step: Step, node: NodeState, actions: seq<Action>, b': Board) {
    Turn(c, b, step, node, actions, b')
    && Handled(c, Actor(step), NodeOf(b, Actor(step)), EventOn(c, b, step), node, actions)
  }

  // ---------- The board is the system ----------

  lemma EmittedIsPosted(c: Config, me: nat, actions: seq<Action>, q: nat)
    requires |actions| <= 2 && q < c.worldSize
    ensures OutTo(me, actions, q) == Emitted(c, me, actions, q)
  {
    if |actions| > 0 {
      assert actions[..0] == [];
      assert |actions| == 2 ==> actions[..1][..0] == [];
    }
  }

  lemma PossibleIsEnabled(c: Config, s: System, b: Board, step: Step)
    requires c.bearWeight > 0 && Inv(c, s) && Shows(c, s, b) && Possible(c, b, step)
    ensures Enabled(c, s, step) && Raised(c, s, step) == EventOn(c, b, step) && Actor(step) < c.worldSize
  {
    assert Traces.ProcOk(c, Actor(step), s[Actor(step)]);
  }

  lemma TurnedCell(c: Config, b: Board, step: Step, node: NodeState, actions: seq<Action>, b': Board, p: nat, q: nat)
    requires Turn(c, b, step, node, actions, b') && p < 4 && q < 4
    ensures NodeOf(b', p) == (if p == Actor(step) then node else NodeOf(b, p))
    ensures Channel(b', p, q) == (if step == Deliver(p, q) then Channel(b, p, q)[1..] else Channel(b, p, q))
                                 + (if p == Actor(step) then Emitted(c, p, actions, q) else [])
  {
    assert RowMoves(c, b, b', p, step, node, actions);
  }

  lemma CellAfter(c: Config, s: System, b: Board, step: Step, node: NodeState, actions: seq<Action>, b': Board, p: nat, q: nat)
    requires Supported(c) && Inv(c, s) && Shows(c, s, b) && Enabled(c, s, step) && Goes(c, b, step, node, actions, b')
    requires p < c.worldSize && q < c.worldSize && Raised(c, s, step) == EventOn(c, b, step)
    ensures CellShown(c, Next(c, s, step), b', p, q)
  {
    if p == Actor(step) {
      ActorAfter(c, s, step, q);
    } else {
      OtherAfter(c, s, step, p, q);
    }
    EmittedIsPosted(c, Actor(step), actions, q);
    TurnedCell(c, b, step, node, actions, b', p, q);
  }

  ghost predicate CellShown(c: Config, s: System, b: Board, p: nat, q: nat) {
    && p < c.worldSize == |s| && q < c.worldSize == |s[p].out|
    && s[p].node == NodeOf(b, p) && s[p].out[q] == Channel(b, p, q)
  }

  lemma CellsMakeBoard(c: Config, s: System, b: Board)
    requires 0 < c.worldSize <= 4 && Shaped(c, s)
    requires forall p: nat, q: nat :: p < c.worldSize && q < c.worldSize ==> CellShown(c, s, b, p, q)
    ensures Shows(c, s, b)
  {
    forall p: nat | p < c.worldSize
      ensures s[p].node == NodeOf(b, p) && forall q: nat :: q < c.worldSize ==> s[p].out[q] == Channel(b, p, q)
    {
      assert CellShown(c, s, b, p, 0);
      forall q: nat | q < c.worldSize ensures s[p].out[q] == Channel(b, p, q) {
        assert CellShown(c, s, b, p, q);
      }
    }
  }

  lemma ShowsAfter(c: Config, s: System, b: Board, step: Step, node: NodeState, actions: seq<Action>, b': Board)
    requires Supported(c) && Inv(c, s) && Shows(c, s, b) && Enabled(c, s, step) && Goes(c, b, step, node, actions, b')
    requires Raised(c, s, step) == EventOn(c, b, step)
    ensures Shows(c, Next(c, s, step), b')
  {
    StepKeepsInv(c, s, step);
    forall p: nat, q: nat | p < c.worldSize && q < c.worldSize ensures CellShown(c, Next(c, s, step), b', p, q) {
      CellAfter(c, s, b, step, node, actions, b', p, q);
    }
    CellsMakeBoard(c, Next(c, s, step), b');
  }

  lemma AskedAfter(c: Config, s: System, b: Board, step: Step, b': Board)
    requires Supported(c) && Inv(c, s) && OnlyAsked(s, b.asked, b.again) && Enabled(c, s, step) && Counted(b, step, b')
    ensures OnlyAsked(Next(c, s, step), b'.asked, b'.again)
  {
    Termination.StepAsks(c, s, step);
  }

  /** A step on the board is a step of the system. */
  lemma Play(c: Config, s: System, b: Board, step: Step, node: NodeState, actions: seq<Action>, b': Board)
      returns (s': System)
    requires Supported(c) && Stage(c, s, b) && Goes(c, b, step, node, actions, b')
    ensures Enabled(c, s, step) && Raised(c, s, step) == EventOn(c, b, step) && s' == Next(c, s, step)
    ensures Stage(c, s', b') && Causality.Continues(s, s')
  {
    ReachableInv(c, s);
    PossibleIsEnabled(c, s, b, step);
    s' := Next(c, s, step);
    Causality.StepContinues(c, s, step);
    NextReachable(c, s, step);
    ShowsAfter(c, s, b, step, node, actions, b');
    AskedAfter(c, s, b, step, b');
  }

  /** The empty board. */
  lemma Start(c: Config, b: Board) returns (s: System)
    requires Supported(c) && c.worldSize <= 4
    requires forall p: nat :: p < c.worldSize ==> NodeOf(b, p) == InitNode(p, c)
    requires b.from0 == b.from1 == b.from2 == b.from3 == NOTHING
    ensures Stage(c, s, b) && forall p :: 0 <= p < |s| ==> s[p].trace == []
  {
    s := InitSystem(c);
    assert Run(c, []) == s;
    assert forall p: nat :: p < c.worldSize ==> s[p] == InitProc(p, c);
  }

  // ---------- Parties of hares ----------

  function Pids(q: seq<Ticket>): seq<nat> {
    seq(|q|, i requires 0 <= i < |q| => q[i].pid)
  }

  ghost predicate OnlyHares(c: Config, q: seq<Ticket>) {
    c.capacity > 0 && c.hareWeight == 1 && c.bearWeight > 1 && forall t :: t in q ==> t.pid < c.numHares
  }

  lemma {:induction false} HarePids(cs: seq<PartyMember>, bear: nat)
    requires bear > 1 && forall i :: 0 <= i < |cs| ==> cs[i].w == 1
    ensures PidsOf(cs, 1) == seq(|cs|, i requires 0 <= i < |cs| => cs[i].pid) && PidsOf(cs, bear) == []
  {
    if cs != [] {
      HarePids(cs[..|cs| - 1], bear);
    }
  }

  lemma HareLists(c: Config, q: seq<Ticket>)
    requires WellFormed(q) && OnlyHares(c, q) && q != []
    ensures var cs := Candidates(c, q);
            && cs[0] == PartyMember(q[0].pid, 1)
            && PidsOf(cs[1..], 1) == Pids(q[1..]) && PidsOf(cs[1..], c.bearWeight) == []
  {
    var cs := Candidates(c, q);
    forall i | 0 <= i < |q| ensures cs[i] == PartyMember(q[i].pid, 1) {
      assert q[i] in q;
    }
    HarePids(cs[1..], c.bearWeight);
  }

  lemma HeadAndRest(q: seq<Ticket>, k: nat)
    requires 0 < k <= |q|
    ensures [q[0].pid] + [] + Pids(q[1..])[..k - 1] == Pids(q[..k])
  {
  }

  /** Among hares the first ones go, as many as the capacity. */
  lemma FirstHares(c: Config, q: seq<Ticket>)
    requires WellFormed(q) && OnlyHares(c, q) && c.capacity <= |q|
    ensures BuildParty(c, q) == Some(Pids(q[..c.capacity]))
  {
    HareLists(c, q);
    HeadAndRest(q, c.capacity);
    NoBears(c.capacity - 1, c.bearWeight, |q| - 1);
    SelectionUnfolded(c.capacity, c.bearWeight, Candidates(c, q), Pids(q[1..]), [], c.capacity - 1, 0);
  }

  lemma NoBears(rest: nat, bear: nat, hares: nat)
    requires bear > 0 && rest <= hares
    ensures MostBears(Min(rest / bear, 0), rest, bear, 0, hares) == Some(0)
  {
  }

  lemma HeadStarts(c: Config, me: nat, n: NodeState)
    requires Supported(c) && n.state.Queued? && WellFormed(n.queue) && OnlyHares(c, n.queue)
    requires c.capacity <= |n.queue| && n.queue[0].pid == me
    ensures Lead(c, me, n) == StartParty(c, me, n, Pids(n.queue[..c.capacity]))
  {
    FirstHares(c, n.queue);
    assert Pids(n.queue[..c.capacity])[0] == me;
  }

  /** The last reply comes in, and the head of the queue starts a party. */
  lemma Leading(c: Config, me: nat, n: NodeState, from: nat, s: Ticket, t: Ticket)
    requires Supported(c) && me < c.worldSize && from < c.worldSize && |n.tracker| == c.worldSize
    requires n.state.WaitingForReplies? && false !in n.tracker[from := true]
    requires WellFormed(n.queue) && OnlyHares(c, n.queue) && c.capacity <= |n.queue| && n.queue[0].pid == me
    ensures NodeStep(c, me, n, Net(from, Reply(s, t)))
         == StartParty(c, me, FullyAnswered(n, from, s), Pids(n.queue[..c.capacity]))
  {
    HeadStarts(c, me, FullyAnswered(n, from, s));
  }

  /** A process that has just taken in its last reply. */
  function FullyAnswered(n: NodeState, from: nat, s: Ticket): NodeState
    requires from < |n.tracker|
  {
    n.(clock := Clock.AfterReceive(n.clock, s.ts) + 1, tracker := n.tracker[from := true], state := Queued)
  }

  // ---------- What can be read off a board ----------

  /** A party start under way was sent by the process that leads the party. */
  lemma PartyOnTheWay(c: Config, s: System, b: Board, p: nat, q: nat, k: nat) returns (j: nat)
    requires Supported(c) && Stage(c, s, b) && p < c.worldSize && q < c.worldSize
    requires k < |Channel(b, p, q)| && Channel(b, p, q)[k].PartyStart?
    ensures LeadsAt(s, p, j) && PartyOf(s, p, j) == Channel(b, p, q)[k]
  {
    ReachableInv(c, s);
    j := UnderWayWasSent(c, s, p, q, k);
  }

  lemma NobodyAskedAgain(c: Config, s: System, b: Board)
    requires c.bearWeight > 0 && Stage(c, s, b) && b.again == {}
    ensures OneShot(s)
  {
    Termination.OneShotCounts(s);
  }

  lemma LeadStays(s: System, s': System, l: nat, j: nat)
    requires Causality.Continues(s, s') && LeadsAt(s, l, j)
    ensures LeadsAt(s', l, j) && PartyOf(s', l, j) == PartyOf(s, l, j)
  {
  }
}
