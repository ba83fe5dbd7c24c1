/** One process of the protocol as a pure transition function. */
module NodeModel {
  import opened Types
  import opened Queue
  import Policy
  import Clock

  datatype AppState = Idle | WaitingForReplies | Queued | InParty

  datatype Party = Party(leader: nat, id: nat, members: seq<nat>)

  datatype NodeState = NodeState(
    clock: nat,
    state: AppState,
    queue: seq<Ticket>,
    party: Option<Party>,
    pending: Option<Ticket>,
    tracker: seq<bool>,
    partyCounter: nat)

  function NoReplies(c: Config): seq<bool> {
    seq(c.worldSize, _ => false)
  }

  function InitNode(me: nat, c: Config): NodeState {
    NodeState(0, Idle, [], None, None, NoReplies(c), me * c.partyIdOffset % TWO_32)
  }

  function MarkReply(n: NodeState, p: nat): NodeState
    requires p < |n.tracker|
  {
    n.(tracker := n.tracker[p := true])
  }

  predicate AllReplies(n: NodeState) {
    false !in n.tracker
  }

  predicate AmLeader(me: nat, q: seq<Ticket>) {
    q != [] && q[0].pid == me
  }

  function Candidates(c: Config, q: seq<Ticket>): seq<Policy.PartyMember> {
    seq(|q|, i requires 0 <= i < |q| => Policy.PartyMember(q[i].pid, WeightOf(q[i].pid, c)))
  }

  function BuildParty(c: Config, q: seq<Ticket>): Option<seq<nat>>
    requires c.bearWeight > 0
  {
    Policy.FormGroup(c.capacity, c.hareWeight, c.bearWeight, Candidates(c, q))
  }

  function GoToParty(c: Config, n: NodeState, leader: nat, id: nat, members: seq<nat>): NodeState {
    n.(state := InParty,
       party := Some(Party(leader, id % TWO_32, members)),
       pending := None,
       tracker := NoReplies(c),
       queue := RemoveAll(n.queue, members))
  }

  function StartParty(c: Config, me: nat, n: NodeState, group: seq<nat>): (NodeState, seq<Action>) {
    var now := n.clock + 1;
    var id := (n.partyCounter + now) % TWO_32;
    var n1 := n.(clock := now, partyCounter := (n.partyCounter + 1) % TWO_32);
    (GoToParty(c, n1, me, id, group), [Notify(EnteredParty), Broadcast(PartyStart(Ticket(me, now), id, group))])
  }

  /** A queued process that heads its own queue starts a party if the policy finds one. */
  function Lead(c: Config, me: nat, n: NodeState): (NodeState, seq<Action>)
    requires c.bearWeight > 0
  {
    if n.state.Queued? && AmLeader(me, n.queue) then
      match BuildParty(c, n.queue)
      case None => (n, [])
      case Some(group) => if me !in group then (n, []) else StartParty(c, me, n, group)
    else (n, [])
  }

  function Recompute(c: Config, me: nat, n: NodeState): (NodeState, seq<Action>)
    requires c.bearWeight > 0
  {
    if n.state.WaitingForReplies? then
      if AllReplies(n) then Lead(c, me, n.(clock := n.clock + 1, state := Queued)) else (n, [])
    else Lead(c, me, n)
  }

  function OnRequest(c: Config, me: nat, n: NodeState, from: nat, t: Ticket): (NodeState, seq<Action>)
    requires c.bearWeight > 0
  {
    var n1 := n.(clock := Clock.AfterReceive(n.clock, t.ts), queue := Enqueue(n.queue, t));
    var (n2, actions) := Recompute(c, me, n1);
    (n2, [Send(from, Reply(Ticket(me, n1.clock), t))] + actions)
  }

  function OnReply(c: Config, me: nat, n: NodeState, from: nat, s: Ticket): (NodeState, seq<Action>)
    requires c.bearWeight > 0 && from < |n.tracker|
  {
    var n1 := n.(clock := Clock.AfterReceive(n.clock, s.ts));
    if !n1.state.WaitingForReplies? then (n1, []) else Recompute(c, me, MarkReply(n1, from))
  }

  function OnPartyStart(c: Config, me: nat, n: NodeState, s: Ticket, id: nat, members: seq<nat>): (NodeState, seq<Action>)
    requires c.bearWeight > 0
  {
    var n1 := n.(clock := Clock.AfterReceive(n.clock, s.ts), queue := RemoveAll(n.queue, members));
    if me in members then (GoToParty(c, n1, s.pid, id, members), [Notify(EnteredParty)])
    else Recompute(c, me, n1)
  }

  function OnWant(c: Config, me: nat, n: NodeState): (NodeState, seq<Action>)
    requires me < c.worldSize
  {
    var n1 := n.(clock := n.clock + 1);
    if !n1.state.Idle? then (n1, [])
    else
      var t := Ticket(me, n1.clock);
      (n1.(state := WaitingForReplies,
           tracker := NoReplies(c)[me := true],
           pending := Some(t),
           queue := Enqueue(n1.queue, t)),
       [Broadcast(Request(t))])
  }

  function OnRelease(c: Config, n: NodeState): (NodeState, seq<Action>) {
    (n.(clock := n.clock + 1, party := None, pending := None, tracker := NoReplies(c), state := Idle),
     [Notify(ExitedParty)])
  }

  /** The reply tracker has one slot per process; a reply must come from one of them. */
  predicate Handles(c: Config, me: nat, n: NodeState, ev: Event) {
    && c.bearWeight > 0 && me < c.worldSize && |n.tracker| == c.worldSize
    && (ev.Net? && ev.msg.Reply? ==> ev.from < c.worldSize)
  }

  function NodeStep(c: Config, me: nat, n: NodeState, ev: Event): (NodeState, seq<Action>)
    requires Handles(c, me, n, ev)
  {
    match ev
    case Local(WantParty) => OnWant(c, me, n)
    case Local(ReleaseParty) => OnRelease(c, n)
    case Net(from, Request(t)) => OnRequest(c, me, n, from, t)
    case Net(from, Reply(s, _)) => OnReply(c, me, n, from, s)
    case Net(_, PartyStart(s, id, members)) => OnPartyStart(c, me, n, s, id, members)
  }
}

/** The event handlers as they update a process in place, proved against `NodeModel`. */
module LamportAlgorithm {
  import opened Types
  import Queue
  import Clock
  import Policy
  import M = NodeModel

  class LamportQueueAlgorithm {
    const cfg: Config
    const myPid: nat
    const clock: Clock.LamportClock
    const queue: Queue.RequestQueue
    const policy: Policy.LamportPolicy
    var state: M.AppState
    var party: Option<M.Party>
    var pending: Option<Ticket>
    var tracker: seq<bool>
    var partyCounter: nat

    ghost function Repr(): set<object> {
      {this, clock, queue}
    }

    ghost predicate Valid()
      reads Repr()
    {
      && queue.Valid()
      && cfg.bearWeight > 0 && myPid < cfg.worldSize && |tracker| == cfg.worldSize
      && policy.capacity == cfg.capacity && policy.hareWeight == cfg.hareWeight && policy.bearWeight == cfg.bearWeight
    }

    /** The abstract process this object stands for. */
    ghost function View(): M.NodeState
      reads Repr()
    {
      M.NodeState(clock.time, state, queue.queue, party, pending, tracker, partyCounter)
    }

    constructor (pid: nat, cfg: Config)
      requires cfg.bearWeight > 0 && pid < cfg.worldSize
      ensures Valid() && fresh(Repr()) && this.cfg == cfg && myPid == pid
      ensures View() == M.InitNode(pid, cfg)
    {
      this.cfg := cfg;
      myPid := pid;
      clock := new Clock.LamportClock();
      queue := new Queue.RequestQueue();
      policy := new Policy.LamportPolicy(cfg.capacity, cfg.hareWeight, cfg.bearWeight);
      state := M.Idle;
      party := None;
      pending := None;
      tracker := M.NoReplies(cfg);
      partyCounter := pid * cfg.partyIdOffset % TWO_32;
    }

    method MarkReply(p: nat)
      requires Valid() && p < cfg.worldSize
      modifies this`tracker
      ensures Valid() && View() == M.MarkReply(old(View()), p)
    {
      tracker := tracker[p := true];
    }

    method ResetTracker()
      requires Valid()
      modifies this`tracker
      ensures Valid() && View() == old(View()).(tracker := M.NoReplies(cfg))
    {
      tracker := M.NoReplies(cfg);
    }

    method AllRepliesReceived() returns (all: bool)
      requires Valid()
      ensures all == M.AllReplies(View())
    {
      all := false !in tracker;
    }

    method AmLeader() returns (yes: bool)
      requires Valid()
      ensures yes == M.AmLeader(myPid, View().queue)
    {
      var first := queue.GetFirstPid();
      if queue.queue != [] {
        assert queue.queue[0] in queue.queue;
      }
      yes := first == Some(myPid);
    }

    method MyTicket() returns (t: Ticket)
      ensures t == Ticket(myPid, clock.time)
    {
      var now := clock.Now();
      t := Ticket(myPid, now);
    }

    method CreatePartyId() returns (id: nat)
      modifies this`partyCounter
      ensures id == (old(partyCounter) + clock.time) % TWO_32 && id < TWO_32
      ensures partyCounter == (old(partyCounter) + 1) % TWO_32
    {
      var now := clock.Now();
      id := (partyCounter + now) % TWO_32;
      partyCounter := (partyCounter + 1) % TWO_32;
    }

    method TryBuildParty() returns (group: Option<seq<nat>>)
      requires Valid()
      ensures group == M.BuildParty(cfg, View().queue)
    {
      var snap := queue.Snapshot();
      var candidates: seq<Policy.PartyMember> := [];
      var i := 0;
      while i < |snap|
        invariant 0 <= i <= |snap|
        invariant candidates == M.Candidates(cfg, snap)[..i]
      {
        candidates := candidates + [Policy.PartyMember(snap[i].pid, WeightOf(snap[i].pid, cfg))];
        i := i + 1;
      }
      assert candidates == M.Candidates(cfg, snap);
      var ok, chosen := policy.TryFormGroup(candidates);
      group := if ok then Some(chosen) else None;
    }

    method GoToParty(leader: nat, id: nat, members: seq<nat>, before: seq<Action>) returns (actions: seq<Action>)
      requires Valid()
      modifies Repr()
      ensures Valid() && View() == M.GoToParty(cfg, old(View()), leader, id, members)
      ensures actions == before + [Notify(EnteredParty)]
    {
      state := M.InParty;
      party := Some(M.Party(leader, id % TWO_32, members));
      pending := None;
      ResetTracker();
      queue.RemoveGroup(members);
      actions := before + [Notify(EnteredParty)];
    }

    /** Ticks, enters the party and announces it. */
    method StartParty(group: seq<nat>, before: seq<Action>) returns (actions: seq<Action>)
      requires Valid()
      modifies Repr()
      ensures Valid()
      ensures View() == M.StartParty(cfg, myPid, old(View()), group).0
      ensures actions == before + M.StartParty(cfg, myPid, old(View()), group).1
    {
      var now := clock.Tick();
      var ticket := MyTicket();
      var id := CreatePartyId();
      actions := GoToParty(myPid, id, group, before);
      actions := actions + [Broadcast(PartyStart(ticket, id, group))];
    }

    method Lead(before: seq<Action>) returns (actions: seq<Action>)
      requires Valid()
      modifies Repr()
      ensures Valid()
      ensures View() == M.Lead(cfg, myPid, old(View())).0
      ensures actions == before + M.Lead(cfg, myPid, old(View())).1
    {
      actions := before;
      var first := AmLeader();
      if state.Queued? && first {
        var group := TryBuildParty();
        if group.None? { return; }
        if myPid !in group.value { return; }
        actions := StartParty(group.value, before);
      }
    }

    method Recompute(before: seq<Action>) returns (actions: seq<Action>)
      requires Valid()
      modifies Repr()
      ensures Valid()
      ensures View() == M.Recompute(cfg, myPid, old(View())).0
      ensures actions == before + M.Recompute(cfg, myPid, old(View())).1
    {
      if state.WaitingForReplies? {
        var all := AllRepliesReceived();
        if !all { return before; }
        var now := clock.Tick();
        state := M.Queued;
      }
      actions := Lead(before);
    }

    method OnRequest(from: nat, t: Ticket) returns (actions: seq<Action>)
      requires Valid()
      modifies Repr()
      ensures Valid()
      ensures View() == M.OnRequest(cfg, myPid, old(View()), from, t).0
      ensures actions == M.OnRequest(cfg, myPid, old(View()), from, t).1
    {
      clock.OnReceive(t.ts);
      queue.Insert(t);
      var mine := MyTicket();
      actions := Recompute([Send(from, Reply(mine, t))]);
    }

    method OnReply(from: nat, s: Ticket) returns (actions: seq<Action>)
      requires Valid() && from < cfg.worldSize
      modifies Repr()
      ensures Valid()
      ensures View() == M.OnReply(cfg, myPid, old(View()), from, s).0
      ensures actions == M.OnReply(cfg, myPid, old(View()), from, s).1
    {
      clock.OnReceive(s.ts);
      if !state.WaitingForReplies? { return []; }
      MarkReply(from);
      actions := Recompute([]);
    }

    method OnPartyStart(s: Ticket, id: nat, members: seq<nat>) returns (actions: seq<Action>)
      requires Valid()
      modifies Repr()
      ensures Valid()
      ensures View() == M.OnPartyStart(cfg, myPid, old(View()), s, id, members).0
      ensures actions == M.OnPartyStart(cfg, myPid, old(View()), s, id, members).1
    {
      clock.OnReceive(s.ts);
      queue.RemoveGroup(members);
      if myPid in members {
        actions := GoToParty(s.pid, id, members, []);
      } else {
        actions := Recompute([]);
      }
    }

    method OnLocal(kind: LocalKind) returns (actions: seq<Action>)
      requires Valid()
      modifies Repr()
      ensures Valid()
      ensures View() == M.NodeStep(cfg, myPid, old(View()), Local(kind)).0
      ensures actions == M.NodeStep(cfg, myPid, old(View()), Local(kind)).1
    {
      actions := [];
      var now := clock.Tick();
      if kind == WantParty {
        if state.Idle? {
          state := M.WaitingForReplies;
          ResetTracker();
          MarkReply(myPid);
          var t := MyTicket();
          pending := Some(t);
          queue.Insert(t);
          actions := actions + [Broadcast(Request(t))];
        }
      }
      if kind == ReleaseParty {
        party := None;
        pending := None;
        ResetTracker();
        state := M.Idle;
        actions := actions + [Notify(ExitedParty)];
      }
    }

    /** Every handler leaves exactly the state and the actions of the transition function. */
    method HandleEvent(ev: Event) returns (actions: seq<Action>)
      requires Valid() && M.Handles(cfg, myPid, View(), ev)
      modifies Repr()
      ensures Valid()
      ensures View() == M.NodeStep(cfg, myPid, old(View()), ev).0
      ensures actions == M.NodeStep(cfg, myPid, old(View()), ev).1
    {
      match ev
      case Local(kind) => actions := OnLocal(kind);
      case Net(from, Request(t)) => actions := OnRequest(from, t);
      case Net(from, Reply(s, _)) => actions := OnReply(from, s);
      case Net(_, PartyStart(s, id, members)) => actions := OnPartyStart(s, id, members);
    }
  }
}
