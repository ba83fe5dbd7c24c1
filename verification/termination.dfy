/** Runs in which every process asks at most once are finite, and the network can always drain. */
module Termination {
  import opened Types
  import opened Queue
  import opened NodeModel
  import opened Process
  import opened Traces
  import opened Network
  import opened Histories
  import opened Ordering
  import opened Leaders
  import opened Disjointness
  import opened Repeated
  import opened Causality
  import Clock

  // ---------- What is still to come ----------

  /** Steps a message still causes by itself: its delivery, then a reply or a release. */
  function MessageCost(m: Message, to: nat): nat {
    match m
    case Request(_) => 2
    case Reply(_, _) => 1
    case PartyStart(_, _, members) => if to in members then 2 else 1
  }

  function ChannelCost(ms: seq<Message>, to: nat): nat {
    if ms == [] then 0 else ChannelCost(ms[..|ms| - 1], to) + MessageCost(ms[|ms| - 1], to)
  }

  function RowCost(out: seq<seq<Message>>, n: nat): nat
    requires n <= |out|
  {
    if n == 0 then 0 else RowCost(out, n - 1) + ChannelCost(out[n - 1], n - 1)
  }

  /** Steps a process may still cause on its own, short of asking: starting a party, releasing. */
  function OwnCost(c: Config, n: NodeState): nat
    requires c.worldSize >= 1
  {
    (if n.pending.Some? then 2 * c.worldSize - 1 else 0) + (if n.state.InParty? then 1 else 0)
  }

  function Potential(c: Config, pr: Proc): nat
    requires c.worldSize >= 1 && |pr.out| == c.worldSize
  {
    OwnCost(c, pr.node) + RowCost(pr.out, c.worldSize)
  }

  ghost function Total(c: Config, s: System, n: nat): nat
    requires c.worldSize >= 1 && Shaped(c, s) && n <= |s|
  {
    if n == 0 then 0 else Total(c, s, n - 1) + Potential(c, s[n - 1])
  }

  /** What a want adds: its own step, the requests, and a party of its own. */
  function WantCost(c: Config): nat
    requires c.worldSize >= 1
  {
    4 * c.worldSize - 2
  }

  /** What a list of actions puts on the channels to the first `n` processes. */
  function EmitCost(me: nat, actions: seq<Action>, n: nat): nat {
    if n == 0 then 0 else EmitCost(me, actions, n - 1) + ChannelCost(OutTo(me, actions, n - 1), n - 1)
  }

  lemma {:induction false} ChannelCostConcat(a: seq<Message>, b: seq<Message>, to: nat)
    ensures ChannelCost(a + b, to) == ChannelCost(a, to) + ChannelCost(b, to)
  {
    if b == [] {
      assert a + b == a;
    } else {
      ChannelCostConcat(a, b[..|b| - 1], to);
      assert (a + b)[..|a + b| - 1] == a + b[..|b| - 1];
    }
  }

  lemma RowCostPost(me: nat, out: seq<seq<Message>>, actions: seq<Action>, n: nat)
    requires n <= |out|
    ensures RowCost(Post(me, out, actions), n) == RowCost(out, n) + EmitCost(me, actions, n)
  {
    forall q: nat | q < |out| {
      ChannelCostPost(me, out, actions, q);
    }
    RowCostSum(me, out, Post(me, out, actions), actions, n);
  }

  lemma {:induction false} RowCostSum(me: nat, out: seq<seq<Message>>, out': seq<seq<Message>>, actions: seq<Action>, n: nat)
    requires n <= |out| == |out'|
    requires forall q: nat :: q < |out| ==> ChannelCost(out'[q], q) == ChannelCost(out[q], q) + ChannelCost(OutTo(me, actions, q), q)
    ensures RowCost(out', n) == RowCost(out, n) + EmitCost(me, actions, n)
  {
    if n > 0 {
      RowCostSum(me, out, out', actions, n - 1);
    }
  }

  lemma ChannelCostPost(me: nat, out: seq<seq<Message>>, actions: seq<Action>, q: nat)
    requires q < |out|
    ensures |Post(me, out, actions)| == |out|
    ensures ChannelCost(Post(me, out, actions)[q], q) == ChannelCost(out[q], q) + ChannelCost(OutTo(me, actions, q), q)
  {
    ChannelCostConcat(out[q], OutTo(me, actions, q), q);
  }

  lemma {:induction false} EmitNothing(me: nat, n: nat)
    ensures EmitCost(me, [], n) == 0
  {
    if n > 0 {
      EmitNothing(me, n - 1);
    }
  }

  lemma OutToSnoc(me: nat, actions: seq<Action>, a: Action, q: nat)
    ensures OutTo(me, actions + [a], q) == OutTo(me, actions, q) + Posted(me, a, q)
  {
    assert (actions + [a])[..|actions|] == actions;
  }

  lemma {:induction false} OutToConcat(me: nat, a: seq<Action>, b: seq<Action>, q: nat)
    ensures OutTo(me, a + b, q) == OutTo(me, a, q) + OutTo(me, b, q)
  {
    if b == [] {
      assert a + b == a;
    } else {
      OutToConcat(me, a, b[..|b| - 1], q);
      assert (a + b)[..|a + b| - 1] == a + b[..|b| - 1];
      ConcatAssoc(OutTo(me, a, q), OutTo(me, b[..|b| - 1], q), Posted(me, b[|b| - 1], q));
    }
  }

  lemma ChannelConcat(me: nat, a: seq<Action>, b: seq<Action>, q: nat)
    ensures ChannelCost(OutTo(me, a + b, q), q) == ChannelCost(OutTo(me, a, q), q) + ChannelCost(OutTo(me, b, q), q)
  {
    OutToConcat(me, a, b, q);
    ChannelCostConcat(OutTo(me, a, q), OutTo(me, b, q), q);
  }

  lemma {:induction false} EmitSum(me: nat, a: seq<Action>, b: seq<Action>, all: seq<Action>, n: nat)
    requires forall q: nat :: ChannelCost(OutTo(me, all, q), q)
                           == ChannelCost(OutTo(me, a, q), q) + ChannelCost(OutTo(me, b, q), q)
    ensures EmitCost(me, all, n) == EmitCost(me, a, n) + EmitCost(me, b, n)
  {
    if n > 0 {
      EmitSum(me, a, b, all, n - 1);
    }
  }

  lemma EmitConcat(me: nat, a: seq<Action>, b: seq<Action>, n: nat)
    ensures EmitCost(me, a + b, n) == EmitCost(me, a, n) + EmitCost(me, b, n)
  {
    forall q: nat {
      ChannelConcat(me, a, b, q);
    }
    EmitSum(me, a, b, a + b, n);
  }

  lemma OneOut(me: nat, a: Action, q: nat)
    ensures OutTo(me, [a], q) == Posted(me, a, q)
  {
    assert [a] == [] + [a];
    OutToSnoc(me, [], a, q);
  }

  lemma OneCost(m: Message, to: nat)
    ensures ChannelCost([m], to) == MessageCost(m, to)
  {
    assert [m][..0] == [];
  }

  lemma {:induction false} EmitNotify(me: nat, kind: NotifyKind, n: nat)
    ensures EmitCost(me, [Notify(kind)], n) == 0
  {
    if n > 0 {
      EmitNotify(me, kind, n - 1);
      OneOut(me, Notify(kind), n - 1);
    }
  }

  lemma ReplyCost(me: nat, to: nat, m: Message, q: nat)
    requires m.Reply?
    ensures ChannelCost(OutTo(me, [Send(to, m)], q), q) == if q == to then 1 else 0
  {
    OneOut(me, Send(to, m), q);
    OneCost(m, q);
  }

  lemma {:induction false} EmitPoint(me: nat, to: nat, actions: seq<Action>, n: nat)
    requires forall q: nat :: ChannelCost(OutTo(me, actions, q), q) == if q == to then 1 else 0
    ensures EmitCost(me, actions, n) == if to < n then 1 else 0
  {
    if n > 0 {
      EmitPoint(me, to, actions, n - 1);
    }
  }

  lemma EmitReply(me: nat, to: nat, m: Message, n: nat)
    requires m.Reply?
    ensures EmitCost(me, [Send(to, m)], n) == if to < n then 1 else 0
  {
    forall q: nat {
      ReplyCost(me, to, m, q);
    }
    EmitPoint(me, to, [Send(to, m)], n);
  }

  lemma BroadcastCost(me: nat, m: Message, q: nat)
    ensures ChannelCost(OutTo(me, [Broadcast(m)], q), q) <= (if q == me then 0 else 2)
  {
    OneOut(me, Broadcast(m), q);
    OneCost(m, q);
  }

  lemma {:induction false} EmitAtMostTwo(me: nat, actions: seq<Action>, n: nat)
    requires forall q: nat :: ChannelCost(OutTo(me, actions, q), q) <= if q == me then 0 else 2
    ensures EmitCost(me, actions, n) <= if me < n then 2 * n - 2 else 2 * n
  {
    if n > 0 {
      EmitAtMostTwo(me, actions, n - 1);
    }
  }

  lemma EmitBroadcast(me: nat, m: Message, n: nat)
    ensures EmitCost(me, [Broadcast(m)], n) <= if me < n then 2 * n - 2 else 2 * n
  {
    forall q: nat {
      BroadcastCost(me, m, q);
    }
    EmitAtMostTwo(me, [Broadcast(m)], n);
  }

  // ---------- Each event pays for itself ----------

  /** What a node is worth after an event, with what its actions put on the channels. */
  function WorthAfter(c: Config, me: nat, n: NodeState, actions: seq<Action>): nat
    requires c.worldSize >= 1
  {
    OwnCost(c, n) + EmitCost(me, actions, c.worldSize)
  }

  ghost predicate Underway(n: NodeState) {
    n.state.WaitingForReplies? || n.state.Queued? ==> n.pending.Some?
  }

  lemma AnnouncementCost(me: nat, m: Message, n: nat)
    requires me < n && m.PartyStart?
    ensures EmitCost(me, [Notify(EnteredParty), Broadcast(m)], n) <= 2 * n - 2
    ensures !AsksAmong([Notify(EnteredParty), Broadcast(m)])
  {
    assert [Notify(EnteredParty), Broadcast(m)] == [Notify(EnteredParty)] + [Broadcast(m)];
    EmitConcat(me, [Notify(EnteredParty)], [Broadcast(m)], n);
    EmitNotify(me, EnteredParty, n);
    EmitBroadcast(me, m, n);
  }

  /** A party start is paid for by the pending request. */
  lemma StartPays(c: Config, me: nat, n: NodeState, group: seq<nat>)
    requires Supported(c) && me < c.worldSize && n.state.Queued? && n.pending.Some?
    ensures var (n', actions) := StartParty(c, me, n, group);
            WorthAfter(c, me, n', actions) <= OwnCost(c, n) && !AsksAmong(actions)
  {
    AnnouncementCost(me, StartParty(c, me, n, group).1[1].msg, c.worldSize);
  }

  lemma LeadPays(c: Config, me: nat, n: NodeState)
    requires Supported(c) && me < c.worldSize && Underway(n)
    ensures var (n', actions) := Lead(c, me, n);
            WorthAfter(c, me, n', actions) <= OwnCost(c, n) && !AsksAmong(actions)
  {
    EmitNothing(me, c.worldSize);
    if n.state.Queued? && AmLeader(me, n.queue) && BuildParty(c, n.queue).Some? {
      StartPays(c, me, n, BuildParty(c, n.queue).value);
    }
  }

  /** Recomputing never raises the cost. */
  lemma RecomputePays(c: Config, me: nat, n: NodeState)
    requires Supported(c) && me < c.worldSize && Underway(n)
    ensures var (n', actions) := Recompute(c, me, n);
            WorthAfter(c, me, n', actions) <= OwnCost(c, n) && !AsksAmong(actions)
  {
    if n.state.WaitingForReplies? && AllReplies(n) {
      var queued := n.(clock := n.clock + 1, state := Queued);
      assert Recompute(c, me, n) == Lead(c, me, queued) && OwnCost(c, queued) == OwnCost(c, n);
      LeadPays(c, me, queued);
    } else if n.state.WaitingForReplies? {
      assert Recompute(c, me, n) == (n, []);
      EmitNothing(me, c.worldSize);
    } else {
      assert Recompute(c, me, n) == Lead(c, me, n);
      LeadPays(c, me, n);
    }
  }

  /** What the arrival of an event is worth. */
  function EventCost(me: nat, ev: Event): nat {
    match ev
    case Local(_) => 0
    case Net(_, m) => MessageCost(m, me)
  }

  lemma RequestPays(c: Config, me: nat, n: NodeState, from: nat, t: Ticket)
    requires Supported(c) && me < c.worldSize && Underway(n)
    ensures var (n', actions) := OnRequest(c, me, n, from, t);
            WorthAfter(c, me, n', actions) <= OwnCost(c, n) + 1 && !AsksAmong(actions)
  {
    var n1 := n.(clock := Clock.AfterReceive(n.clock, t.ts), queue := Enqueue(n.queue, t));
    RecomputePays(c, me, n1);
    ReplyFirst(c, me, from, Reply(Ticket(me, n1.clock), t), Recompute(c, me, n1).1);
  }

  lemma ReplyFirst(c: Config, me: nat, from: nat, reply: Message, rest: seq<Action>)
    requires reply.Reply? && !AsksAmong(rest)
    ensures EmitCost(me, [Send(from, reply)] + rest, c.worldSize) <= EmitCost(me, rest, c.worldSize) + 1
    ensures !AsksAmong([Send(from, reply)] + rest)
  {
    EmitConcat(me, [Send(from, reply)], rest, c.worldSize);
    EmitReply(me, from, reply, c.worldSize);
    var all := [Send(from, reply)] + rest;
    assert forall i :: 0 < i < |all| ==> all[i] == rest[i - 1];
  }

  lemma ReplyPays(c: Config, me: nat, n: NodeState, from: nat, s: Ticket)
    requires Supported(c) && me < c.worldSize && Underway(n) && from < |n.tracker|
    ensures var (n', actions) := OnReply(c, me, n, from, s);
            WorthAfter(c, me, n', actions) <= OwnCost(c, n) && !AsksAmong(actions)
  {
    EmitNothing(me, c.worldSize);
    if n.state.WaitingForReplies? {
      RecomputePays(c, me, MarkReply(n.(clock := Clock.AfterReceive(n.clock, s.ts)), from));
    }
  }

  lemma PartyStartPays(c: Config, me: nat, n: NodeState, s: Ticket, id: nat, members: seq<nat>)
    requires Supported(c) && me < c.worldSize && Underway(n)
    ensures var (n', actions) := OnPartyStart(c, me, n, s, id, members);
            && WorthAfter(c, me, n', actions) <= OwnCost(c, n) + (if me in members then 1 else 0)
            && !AsksAmong(actions)
  {
    if me in members {
      EmitNotify(me, EnteredParty, c.worldSize);
    } else {
      RecomputePays(c, me, n.(clock := Clock.AfterReceive(n.clock, s.ts), queue := RemoveAll(n.queue, members)));
    }
  }

  lemma WantPays(c: Config, me: nat, n: NodeState)
    requires Supported(c) && me < c.worldSize && n.state.Idle?
    ensures var (n', actions) := OnWant(c, me, n);
            WorthAfter(c, me, n', actions) + 1 <= WantCost(c) && AsksAmong(actions)
  {
    var t := Ticket(me, n.clock + 1);
    EmitBroadcast(me, Request(t), c.worldSize);
    assert OnWant(c, me, n).1 == [Broadcast(Request(t))];
    assert Asks(Out(OnWant(c, me, n).1[0]));
  }

  lemma ReleasePays(c: Config, me: nat, n: NodeState)
    requires Supported(c) && me < c.worldSize && n.state.InParty? && n.pending.None?
    ensures var (n', actions) := OnRelease(c, n);
            WorthAfter(c, me, n', actions) + 1 <= OwnCost(c, n) && !AsksAmong(actions)
  {
    EmitNotify(me, ExitedParty, c.worldSize);
  }

  /** Handling an event costs one step and is paid by the event, by the process, or by the want. */
  lemma NodePays(c: Config, me: nat, pr: Proc, ev: Event)
    requires Supported(c) && me < c.worldSize && ProcOk(c, me, pr) && Admissible(c, me, pr, ev)
    ensures var (n', actions) := NodeStep(c, me, pr.node, ev);
            && WorthAfter(c, me, n', actions) + 1
               <= OwnCost(c, pr.node) + EventCost(me, ev) + (if ev == Local(WantParty) then WantCost(c) else 0)
            && (AsksAmong(actions) <==> ev == Local(WantParty))
  {
    match ev
    case Local(WantParty) => WantPays(c, me, pr.node);
    case Local(ReleaseParty) => ReleasePays(c, me, pr.node);
    case Net(from, Request(t)) => RequestPays(c, me, pr.node, from, t);
    case Net(from, Reply(s, _)) => ReplyPays(c, me, pr.node, from, s);
    case Net(_, PartyStart(s, id, members)) => PartyStartPays(c, me, pr.node, s, id, members);
  }

  ghost predicate AsksAmong(actions: seq<Action>) {
    exists i :: 0 <= i < |actions| && Asks(Out(actions[i]))
  }

  lemma ExecutedPotential(c: Config, me: nat, pr: Proc, l: LocalState, ev: Event, node: NodeState, actions: seq<Action>)
    requires c.worldSize >= 1 && |pr.out| == c.worldSize
    ensures var pr' := Executed(me, pr.(local := l), ev, node, actions);
            && |pr'.out| == c.worldSize
            && Potential(c, pr') == WorthAfter(c, me, node, actions) + RowCost(pr.out, c.worldSize)
  {
    RowCostPost(me, pr.out, actions, c.worldSize);
  }

  lemma HandlePays(c: Config, me: nat, pr: Proc, ev: Event)
    requires Supported(c) && me < c.worldSize && ProcOk(c, me, pr) && Admissible(c, me, pr, ev)
    ensures |Handle(c, me, pr, ev).out| == c.worldSize
    ensures Potential(c, Handle(c, me, pr, ev)) + 1
            <= Potential(c, pr) + EventCost(me, ev) + (if ev == Local(WantParty) then WantCost(c) else 0)
  {
    NodePays(c, me, pr, ev);
    var (node, actions) := NodeStep(c, me, pr.node, ev);
    ExecutedPotential(c, me, pr, if ev == Local(WantParty) then pr.local.(shouldWant := false) else pr.local, ev, node, actions);
  }

  // ---------- Every step lowers the total, but for the wants ----------

  lemma {:induction false} RowCostPop(out: seq<seq<Message>>, to: nat, n: nat)
    requires to < |out| && out[to] != [] && n <= |out|
    ensures RowCost(out, n) == RowCost(out[to := out[to][1..]], n) + (if to < n then MessageCost(out[to][0], to) else 0)
  {
    if n > 0 {
      RowCostPop(out, to, n - 1);
      if to == n - 1 {
        assert out[to] == [out[to][0]] + out[to][1..];
        ChannelCostConcat([out[to][0]], out[to][1..], to);
        OneCost(out[to][0], to);
      }
    }
  }

  lemma {:induction false} TotalUpdate(c: Config, s: System, i: nat, pr: Proc, n: nat)
    requires c.worldSize >= 1 && i < |s| && n <= |s| && Shaped(c, s)
    requires |pr.out| == c.worldSize && |pr.node.tracker| == c.worldSize
    ensures Total(c, s[i := pr], n) + (if i < n then Potential(c, s[i]) else 0)
         == Total(c, s, n) + (if i < n then Potential(c, pr) else 0)
  {
    if n > 0 {
      TotalUpdate(c, s, i, pr, n - 1);
    }
  }

  lemma TakenTotal(c: Config, s: System, step: Step)
    requires Supported(c) && Enabled(c, s, step) && Actor(step) < |s|
    ensures Shaped(c, Taken(c, s, step))
    ensures Total(c, s, |s|) == Total(c, Taken(c, s, step), |s|) + EventCost(Actor(step), Raised(c, s, step))
  {
    if step.Deliver? {
      TotalUpdate(c, s, step.from, Popped(s[step.from], step.to), |s|);
      RowCostPop(s[step.from].out, step.to, c.worldSize);
    }
  }

  /** The actor's new state paid for, up to a grant; the rest of the system unchanged. */
  lemma MoveLowersTotal(c: Config, s: System, step: Step, pr': Proc, grant: nat)
    requires Supported(c) && Enabled(c, s, step) && Actor(step) < |s|
    requires Taken(c, s, step)[Actor(step)] == s[Actor(step)]
    requires |pr'.out| == c.worldSize && |pr'.node.tracker| == c.worldSize
    requires Potential(c, pr') + 1 <= Potential(c, s[Actor(step)]) + EventCost(Actor(step), Raised(c, s, step)) + grant
    ensures Shaped(c, Taken(c, s, step)[Actor(step) := pr'])
    ensures Total(c, Taken(c, s, step)[Actor(step) := pr'], |s|) + 1 <= Total(c, s, |s|) + grant
  {
    TakenTotal(c, s, step);
    TotalUpdate(c, Taken(c, s, step), Actor(step), pr', |s|);
  }

  lemma StepLowersTotal(c: Config, s: System, step: Step)
    requires Supported(c) && Inv(c, s) && Enabled(c, s, step)
    ensures Inv(c, Next(c, s, step))
    ensures Total(c, Next(c, s, step), |s|) + 1 <= Total(c, s, |s|) + (if step.Want? then WantCost(c) else 0)
  {
    StepKeepsInv(c, s, step);
    var pr', actions := StepEffect(c, s, step);
    RaisedIsAdmissible(c, s, step);
    HandlePays(c, Actor(step), s[Actor(step)], Raised(c, s, step));
    MoveLowersTotal(c, s, step, pr', if step.Want? then WantCost(c) else 0);
  }

  lemma {:induction false} InitialTotal(c: Config, n: nat)
    requires Supported(c) && n <= c.worldSize
    ensures Total(c, InitSystem(c), n) == 0
  {
    if n > 0 {
      InitialTotal(c, n - 1);
      EmptyRow(c.worldSize, c.worldSize);
    }
  }

  lemma {:induction false} EmptyRow(size: nat, n: nat)
    requires n <= size
    ensures RowCost(seq(size, _ => []), n) == 0
  {
    if n > 0 {
      EmptyRow(size, n - 1);
    }
  }

  // ---------- How long a run can be ----------

  /** How many of the steps are wants. */
  function Wants(steps: seq<Step>): nat {
    if steps == [] then 0 else Wants(steps[..|steps| - 1]) + (if steps[|steps| - 1].Want? then 1 else 0)
  }

  function Granted(c: Config, wants: nat): nat
    requires c.worldSize >= 1
  {
    if wants == 0 then 0 else Granted(c, wants - 1) + WantCost(c)
  }

  lemma {:induction false} GrantedIsProduct(c: Config, wants: nat)
    requires c.worldSize >= 1
    ensures Granted(c, wants) == wants * (4 * c.worldSize - 2)
  {
    if wants > 0 {
      GrantedIsProduct(c, wants - 1);
      assert wants * (4 * c.worldSize - 2) == (wants - 1) * (4 * c.worldSize - 2) + (4 * c.worldSize - 2);
    }
  }

  /** The steps taken, and those still to come, are covered by what the wants granted. */
  ghost predicate PaidFor(c: Config, s: System, taken: nat, wants: nat)
    requires c.bearWeight > 0
  {
    c.worldSize >= 1 && Inv(c, s) && Total(c, s, |s|) + taken <= Granted(c, wants)
  }

  lemma InitPaidFor(c: Config)
    requires Supported(c)
    ensures PaidFor(c, InitSystem(c), 0, 0)
  {
    RunsKeepInv(c, []);
    InitialTotal(c, c.worldSize);
  }

  lemma OneStepMore(c: Config, s: System, step: Step, taken: nat, wants: nat)
    requires Supported(c) && PaidFor(c, s, taken, wants) && Enabled(c, s, step)
    ensures PaidFor(c, Next(c, s, step), taken + 1, if step.Want? then wants + 1 else wants)
  {
    StepLowersTotal(c, s, step);
    assert |Next(c, s, step)| == |s|;
    assert Granted(c, wants + 1) == Granted(c, wants) + WantCost(c);
  }

  lemma {:induction false} StepsLowerTotal(c: Config, steps: seq<Step>)
    requires Supported(c) && IsRun(c, steps)
    ensures PaidFor(c, Run(c, steps), |steps|, Wants(steps))
  {
    if steps == [] {
      InitPaidFor(c);
    } else {
      var front, step := steps[..|steps| - 1], steps[|steps| - 1];
      StepsLowerTotal(c, front);
      OneStepMore(c, Run(c, front), step, |front|, Wants(front));
    }
  }

  /** Every run is as long as its wants allow: at most 4N - 2 steps for each, itself, deliveries and
      releases included. Only asking for ever keeps a run going for ever. */
  lemma RunsAreBounded(c: Config, steps: seq<Step>)
    requires Supported(c) && IsRun(c, steps)
    ensures |steps| <= Wants(steps) * (4 * c.worldSize - 2)
  {
    StepsLowerTotal(c, steps);
    GrantedIsProduct(c, Wants(steps));
  }

  // ---------- Wants and requests ----------

  function AskCount(tr: seq<Entry>): nat {
    if tr == [] then 0 else AskCount(tr[..|tr| - 1]) + (if Asks(tr[|tr| - 1]) then 1 else 0)
  }

  lemma {:induction false} AskCountConcat(a: seq<Entry>, b: seq<Entry>)
    ensures AskCount(a + b) == AskCount(a) + AskCount(b)
  {
    if b == [] {
      assert a + b == a;
    } else {
      AskCountConcat(a, b[..|b| - 1]);
      assert (a + b)[..|a + b| - 1] == a + b[..|b| - 1];
    }
  }

  lemma {:induction false} NothingAsked(tr: seq<Entry>)
    requires forall i :: 0 <= i < |tr| ==> !Asks(tr[i])
    ensures AskCount(tr) == 0
  {
    if tr != [] {
      NothingAsked(tr[..|tr| - 1]);
    }
  }

  lemma {:induction false} AskedTwice(tr: seq<Entry>, i: nat, j: nat)
    requires i < j < |tr| && Asks(tr[i]) && Asks(tr[j])
    ensures AskCount(tr) >= 2
  {
    if j == |tr| - 1 {
      AskedOnce(tr[..j], i);
    } else {
      AskedTwice(tr[..|tr| - 1], i, j);
    }
  }

  lemma {:induction false} AskedOnce(tr: seq<Entry>, i: nat)
    requires i < |tr| && Asks(tr[i])
    ensures AskCount(tr) >= 1
  {
    if i < |tr| - 1 {
      AskedOnce(tr[..|tr| - 1], i);
    }
  }

  lemma {:induction false} AsksOnce(tr: seq<Entry>)
    requires forall i, j :: 0 <= i < |tr| && 0 <= j < |tr| && Asks(tr[i]) && Asks(tr[j]) ==> i == j
    ensures AskCount(tr) <= 1
  {
    if tr != [] {
      var n := |tr| - 1;
      if Asks(tr[n]) {
        NothingAsked(tr[..n]);
      } else {
        AsksOnce(tr[..n]);
      }
    }
  }

  /** One request each, by counting. */
  lemma OneShotCounts(s: System)
    ensures OneShot(s) <==> forall p :: 0 <= p < |s| ==> AskCount(s[p].trace) <= 1
  {
    if OneShot(s) {
      forall p | 0 <= p < |s| ensures AskCount(s[p].trace) <= 1 {
        AsksOnce(s[p].trace);
      }
    } else {
      var p, i, j :| 0 <= p < |s| && 0 <= i < |s[p].trace| && 0 <= j < |s[p].trace|
                     && Asks(s[p].trace[i]) && Asks(s[p].trace[j]) && i != j;
      AskedTwice(s[p].trace, if i < j then i else j, if i < j then j else i);
    }
  }

  ghost function AskTotal(s: System, n: nat): nat
    requires n <= |s|
  {
    if n == 0 then 0 else AskTotal(s, n - 1) + AskCount(s[n - 1].trace)
  }

  /** A step asks exactly when it is a want, and then exactly once, at its actor. */
  lemma StepAsks(c: Config, s: System, step: Step)
    requires Supported(c) && Inv(c, s) && Enabled(c, s, step)
    ensures |Next(c, s, step)| == |s|
    ensures forall p :: 0 <= p < |s| ==>
              AskCount(Next(c, s, step)[p].trace) == AskCount(s[p].trace) + (if step == Want(p) then 1 else 0)
  {
    var actions := StepTraces(c, s, step);
    var a := Actor(step);
    RaisedIsAdmissible(c, s, step);
    EventAsks(c, a, s[a], Raised(c, s, step));
    AskCountConcat(s[a].trace + [In(Raised(c, s, step))], Outs(actions));
    AskCountConcat(s[a].trace, [In(Raised(c, s, step))]);
  }

  lemma EventAsks(c: Config, me: nat, pr: Proc, ev: Event)
    requires Supported(c) && me < c.worldSize && ProcOk(c, me, pr) && Admissible(c, me, pr, ev)
    ensures AskCount([In(ev)]) == 0
    ensures AskCount(Outs(NodeStep(c, me, pr.node, ev).1)) == if ev == Local(WantParty) then 1 else 0
  {
    var actions := NodeStep(c, me, pr.node, ev).1;
    assert [In(ev)][..0] == [];
    if ev == Local(WantParty) {
      WantKeeps(c, me, pr.node, pr.local, SummaryOf(me, pr.trace));
      assert Outs(actions)[..0] == [];
    } else {
      NodePays(c, me, pr, ev);
      NothingAsked(Outs(actions));
    }
  }

  lemma {:induction false} AskTotalMoves(s: System, s': System, who: nat, more: nat, n: nat)
    requires n <= |s| == |s'|
    requires forall p :: 0 <= p < |s| ==> AskCount(s'[p].trace) == AskCount(s[p].trace) + (if p == who then more else 0)
    ensures AskTotal(s', n) == AskTotal(s, n) + (if who < n then more else 0)
  {
    if n > 0 {
      AskTotalMoves(s, s', who, more, n - 1);
    }
  }

  lemma {:induction false} NoneAsked(c: Config, n: nat)
    requires n <= c.worldSize
    ensures AskTotal(InitSystem(c), n) == 0
  {
    if n > 0 {
      NoneAsked(c, n - 1);
    }
  }

  lemma OneMoreAsk(c: Config, s: System, step: Step)
    requires Supported(c) && Inv(c, s) && Enabled(c, s, step)
    ensures |Next(c, s, step)| == |s| == c.worldSize
    ensures AskTotal(Next(c, s, step), c.worldSize) == AskTotal(s, c.worldSize) + (if step.Want? then 1 else 0)
  {
    StepAsks(c, s, step);
    AskTotalMoves(s, Next(c, s, step), Actor(step), if step.Want? then 1 else 0, c.worldSize);
  }

  /** The wants of a run are the requests issued in it. */
  lemma {:induction false} WantsAreRequests(c: Config, steps: seq<Step>)
    requires Supported(c) && IsRun(c, steps)
    ensures |Run(c, steps)| == c.worldSize && AskTotal(Run(c, steps), c.worldSize) == Wants(steps)
  {
    if steps == [] {
      NoneAsked(c, c.worldSize);
    } else {
      var n := |steps| - 1;
      RunsKeepInv(c, steps[..n]);
      WantsAreRequests(c, steps[..n]);
      OneMoreAsk(c, Run(c, steps[..n]), steps[n]);
    }
  }

  lemma {:induction false} AtMostOneEach(s: System, n: nat)
    requires n <= |s| && forall p :: 0 <= p < |s| ==> AskCount(s[p].trace) <= 1
    ensures AskTotal(s, n) <= n
  {
    if n > 0 {
      AtMostOneEach(s, n - 1);
    }
  }

  /** 4N^2 - 2N. */
  function StepBound(n: nat): int {
    4 * n * n - 2 * n
  }

  lemma AtMostTimes(a: nat, b: nat, d: nat)
    requires a <= b
    ensures a * d <= b * d
  {
  }

  lemma Quadratic(n: nat, wants: nat)
    requires wants <= n
    ensures wants * (4 * n - 2) <= StepBound(n)
  {
    if n > 0 {
      AtMostTimes(wants, n, 4 * n - 2);
    }
  }

  /** Runs in which every process asks at most once are finite: at most 4N^2 - 2N steps, counting
      wants, deliveries and releases. */
  lemma OneShotRunsEnd(c: Config, steps: seq<Step>)
    requires Supported(c) && IsRun(c, steps) && OneShot(Run(c, steps))
    ensures |steps| <= StepBound(c.worldSize)
  {
    RunsAreBounded(c, steps);
    WantsAreRequests(c, steps);
    OneShotCounts(Run(c, steps));
    AtMostOneEach(Run(c, steps), c.worldSize);
    Quadratic(c.worldSize, Wants(steps));
  }

  /** The schedule extended by deliveries only. */
  ghost predicate Extends(steps: seq<Step>, longer: seq<Step>) {
    |steps| <= |longer| && steps == longer[..|steps|]
    && forall i :: |steps| <= i < |longer| ==> longer[i].Deliver?
  }

  // ---------- Deliveries alone ----------

  /** The oldest stamp under way is at the head of this channel. */
  ghost predicate SmallestHead(s: System, from: nat, to: nat) {
    && from < |s| && to < |s| && to < |s[from].out| && s[from].out[to] != []
    && forall p, q, k :: 0 <= p < |s| && 0 <= q < |s[p].out| && 0 <= k < |s[p].out[q]|
                         ==> Stamp(s[from].out[to][0]) <= Stamp(s[p].out[q][k])
  }

  /** What a drain can keep: it asks for nothing, and overtakes nothing when it goes by stamps. */
  ghost predicate KeepsAssumptions(s: System, s': System) {
    && (OneShot(s) ==> OneShot(s'))
    && (RequestFirst(s) ==> RequestFirst(s'))
    && (CausalDelivery(s) ==> CausalDelivery(s'))
    && (ChainDelivery(s) ==> ChainDelivery(s'))
    && (NothingStale(s) ==> NothingStale(s'))
  }

  /** No reply that was, or will be, taken in while a request is pending answers an older one. */
  ghost predicate NothingStale(s: System) {
    NoStaleReply(s) && forall p, q :: 0 <= p < |s| && 0 <= q < |s| ==> OnlyPendingUnderWay(s, p, q)
  }

  /** While `p` has a request pending, it is what is under way from `p` to `q` and answered from `q`. */
  ghost predicate OnlyPendingUnderWay(s: System, p: nat, q: nat)
    requires p < |s| && q < |s|
  {
    s[p].node.pending.Some? && q < |s[p].out| && p < |s[q].out| ==>
      && (forall m :: m in s[p].out[q] && m.Request? ==> m.requestTicket == s[p].node.pending.value)
      && (forall m :: m in s[q].out[p] && m.Reply? ==> m.answered == s[p].node.pending.value)
  }

  lemma {:induction false} SmallestUnderWay(c: Config, s: System, p: nat, q: nat, k: nat) returns (from: nat, to: nat)
    requires c.bearWeight > 0 && Inv(c, s) && p < |s| && q < |s[p].out| && k < |s[p].out[q]|
    ensures SmallestHead(s, from, to)
    decreases Stamp(s[p].out[q][k])
  {
    if p', q', k' :| 0 <= p' < |s| && 0 <= q' < |s[p'].out| && 0 <= k' < |s[p'].out[q']|
                     && Stamp(s[p'].out[q'][k']) < Stamp(s[p].out[q][k]) {
      from, to := SmallestUnderWay(c, s, p', q', k');
    } else {
      HeadIsOldest(c, s, p, q, k);
      from, to := p, q;
    }
  }

  lemma OneShotKept(c: Config, s: System, step: Step)
    requires Supported(c) && Inv(c, s) && OneShot(s) && Enabled(c, s, step) && step.Deliver?
    ensures OneShot(Next(c, s, step))
  {
    StepAsks(c, s, step);
    OneShotCounts(s);
    OneShotCounts(Next(c, s, step));
  }

  /** The request of whoever a party names is stamped before the party, so it has come. */
  lemma RequestFirstKept(c: Config, s: System, from: nat, to: nat)
    requires Supported(c) && Inv(c, s) && RequestFirst(s) && Enabled(c, s, Deliver(from, to)) && SmallestHead(s, from, to)
    ensures RequestFirst(Next(c, s, Deliver(from, to)))
  {
    var step := Deliver(from, to);
    var actions := StepTraces(c, s, step);
    forall p, i, r | 0 <= p < |s| && 0 <= i < |Next(c, s, step)[p].trace| && Next(c, s, step)[p].trace[i].In?
                     && Names(Next(c, s, step)[p].trace[i], r) && r != p
      ensures exists k :: 0 <= k < i && PutsPid(Next(c, s, step)[p].trace[k], r)
    {
      StepContinues(c, s, step);
      RequestStaysFirst(c, s, Next(c, s, step), from, to, actions, p, i, r);
    }
  }

  lemma RequestStaysFirst(c: Config, s: System, s': System, from: nat, to: nat, actions: seq<Action>, p: nat, i: nat, r: nat)
    requires Supported(c) && Inv(c, s) && RequestFirst(s) && SmallestHead(s, from, to) && Continues(s, s')
    requires s'[to].trace == s[to].trace + [In(Net(from, s[from].out[to][0]))] + Outs(actions)
    requires forall q :: 0 <= q < |s| && q != to ==> s'[q].trace == s[q].trace
    requires p < |s| && i < |s'[p].trace| && s'[p].trace[i].In? && Names(s'[p].trace[i], r) && r != p
    ensures exists k :: 0 <= k < i && PutsPid(s'[p].trace[k], r)
  {
    if i < |s[p].trace| {
      assert s[p].trace[i] == s'[p].trace[i];
      var k :| 0 <= k < i && PutsPid(s[p].trace[k], r);
      assert s'[p].trace[k] == s[p].trace[k];
    } else {
      NewReceipt(s, s', p, i, s'[p].trace[i].event.from, s'[p].trace[i].event.msg, to, Net(from, s[from].out[to][0]), actions);
      var k := NamedHasArrived(c, s, from, to, r);
      assert s'[p].trace[k] == s[p].trace[k];
    }
  }

  lemma NamedHasArrived(c: Config, s: System, from: nat, to: nat, r: nat) returns (k: nat)
    requires Supported(c) && Inv(c, s) && SmallestHead(s, from, to) && r != to
    requires Names(In(Net(from, s[from].out[to][0])), r)
    ensures k < |s[to].trace| && PutsPid(s[to].trace[k], r)
  {
    var j := UnderWayWasSent(c, s, from, to, 0);
    var x, e := MemberHadAsked(c, s, from, j, r);
    SentIsSomewhere(c, s, r, to, e, Request(x));
    k :| 0 <= k < |s[to].trace| && s[to].trace[k] == In(Net(r, Request(x)));
  }

  lemma SmallestIsInTurn(c: Config, s: System, from: nat, to: nat)
    requires Supported(c) && Reachable(c, s) && SmallestHead(s, from, to)
    ensures InTurn(s, from, to) && InChainTurn(s, from, to)
  {
    forall a, k | 0 <= a < |s| && to < |s[a].out| && 0 <= k < |s[a].out[to]|
      ensures !KnownBefore(s, from, s[a].out[to][k], s[from].out[to][0])
      ensures !HappensBefore(s, s[a].out[to][k], s[from].out[to][0])
    {
      NotBeforeSmallest(c, s, from, s[a].out[to][k], s[from].out[to][0]);
    }
  }

  lemma NotBeforeSmallest(c: Config, s: System, from: nat, m: Message, m': Message)
    requires Supported(c) && Reachable(c, s) && Stamp(m') <= Stamp(m)
    ensures !KnownBefore(s, from, m, m') && !HappensBefore(s, m, m')
  {
    ReachableInv(c, s);
    if KnownBefore(s, from, m, m') {
      KnownIsEarlier(c, s, from, m, m');
    }
    if HappensBefore(s, m, m') {
      HappensBeforeIsEarlier(c, s, m, m');
    }
  }

  /** Deliveries ask for nothing, so the answers still to come stay the right ones. */
  lemma NothingStaleKept(c: Config, s: System, from: nat, to: nat)
    requires Supported(c) && Inv(c, s) && NothingStale(s) && Enabled(c, s, Deliver(from, to))
    ensures NothingStale(Next(c, s, Deliver(from, to)))
  {
    var step := Deliver(from, to);
    RepliesKept(c, s, from, to);
    forall p, q | 0 <= p < |s| && 0 <= q < |s| ensures OnlyPendingUnderWay(Next(c, s, step), p, q) {
      OnlyPendingKept(c, s, from, to, p, q);
    }
  }

  lemma RepliesKept(c: Config, s: System, from: nat, to: nat)
    requires Supported(c) && Inv(c, s) && NothingStale(s) && Enabled(c, s, Deliver(from, to))
    ensures NoStaleReply(Next(c, s, Deliver(from, to)))
  {
    var step := Deliver(from, to);
    var s' := Next(c, s, step);
    var actions := StepTraces(c, s, step);
    StepContinues(c, s, step);
    forall p, i, q, r, t | 0 <= p < |s'| && 0 <= i < |s'[p].trace| && s'[p].trace[i] == In(Net(q, Reply(r, t)))
                           && SummaryOf(p, s'[p].trace[..i]).pending.Some?
      ensures t == SummaryOf(p, s'[p].trace[..i]).pending.value
    {
      assert i <= |s[p].trace| ==> s'[p].trace[..i] == s[p].trace[..i];
      if i < |s[p].trace| {
        assert s[p].trace[i] == s'[p].trace[i];
      } else {
        NewReceipt(s, s', p, i, q, Reply(r, t), to, Raised(c, s, step), actions);
        assert s[p].trace[..i] == s[p].trace;
        assert OnlyPendingUnderWay(s, to, from);
      }
    }
  }

  /** What taking in a message can put on the channels, and what it does to the pending request. */
  lemma DeliveryEmits(c: Config, me: nat, n: NodeState, from: nat, m: Message)
    requires Handles(c, me, n, Net(from, m))
    ensures var (n', actions) := NodeStep(c, me, n, Net(from, m));
            && (n'.pending == n.pending || n'.pending.None?)
            && forall i :: 0 <= i < |actions| ==> FollowsFrom(from, m, actions[i])
  {
  }

  predicate FollowsFrom(from: nat, m: Message, a: Action) {
    match a
    case Send(to, r) => to == from && r.Reply? && m.Request? && r.answered == m.requestTicket
    case Broadcast(r) => r.PartyStart?
    case Notify(_) => true
  }

  lemma {:induction false} EmittedFollows(me: nat, actions: seq<Action>, q: nat, from: nat, m: Message, r: Message)
    requires r in OutTo(me, actions, q)
    requires forall i :: 0 <= i < |actions| ==> FollowsFrom(from, m, actions[i])
    ensures r.PartyStart? || (q == from && r.Reply? && m.Request? && r.answered == m.requestTicket)
  {
    if r in OutTo(me, actions[..|actions| - 1], q) {
      EmittedFollows(me, actions[..|actions| - 1], q, from, m, r);
    }
  }

  /** Everything under way after a delivery was so before, or follows from it. */
  lemma UnderWayAfter(c: Config, s: System, from: nat, to: nat, p: nat, q: nat, r: Message)
    requires Supported(c) && Inv(c, s) && Enabled(c, s, Deliver(from, to)) && p < |s| && q < |s|
    ensures var s' := Next(c, s, Deliver(from, to));
            |s'| == |s| && |s'[p].out| == c.worldSize && (r in s'[p].out[q] && r !in s[p].out[q] ==>
              p == to && (r.PartyStart? || (q == from && r.Reply? && s[from].out[to][0].Request?
                                            && r.answered == s[from].out[to][0].requestTicket)))
  {
    var step := Deliver(from, to);
    if p != to {
      OtherAfter(c, s, step, p, q);
    } else {
      ActorAfter(c, s, step, q);
      DeliveryEmits(c, to, s[to].node, from, s[from].out[to][0]);
      var actions := NodeStep(c, to, s[to].node, Raised(c, s, step)).1;
      if r in OutTo(to, actions, q) {
        EmittedFollows(to, actions, q, from, s[from].out[to][0], r);
      }
    }
  }

  lemma PendingAfter(c: Config, s: System, from: nat, to: nat, p: nat)
    requires Supported(c) && Inv(c, s) && Enabled(c, s, Deliver(from, to)) && p < |s|
    ensures var s' := Next(c, s, Deliver(from, to));
            |s'| == |s| && (s'[p].node.pending == s[p].node.pending || s'[p].node.pending.None?)
  {
    if p != to {
      OtherAfter(c, s, Deliver(from, to), p, p);
    } else {
      ActorAfter(c, s, Deliver(from, to), p);
      DeliveryEmits(c, to, s[to].node, from, s[from].out[to][0]);
    }
  }

  lemma OnlyPendingKept(c: Config, s: System, from: nat, to: nat, p: nat, q: nat)
    requires Supported(c) && Inv(c, s) && NothingStale(s) && Enabled(c, s, Deliver(from, to)) && p < |s| && q < |s|
    ensures |Next(c, s, Deliver(from, to))| == |s| && OnlyPendingUnderWay(Next(c, s, Deliver(from, to)), p, q)
  {
    var s' := Next(c, s, Deliver(from, to));
    PendingAfter(c, s, from, to, p);
    assert OnlyPendingUnderWay(s, p, q);
    forall m | |s'[p].out| > q && m in s'[p].out[q] && m.Request? ensures |s[p].out| > q && m in s[p].out[q] {
      UnderWayAfter(c, s, from, to, p, q, m);
    }
    forall m | |s'[q].out| > p && m in s'[q].out[p] && m.Reply? && s[p].node.pending.Some?
      ensures m.answered == s[p].node.pending.value
    {
      UnderWayAfter(c, s, from, to, q, p, m);
      assert s[from].out[to][0] in s[from].out[to];
    }
  }

  /** From any point of any run, delivering what is under way, oldest stamp first, leads to a quiet
      network, and breaks none of the assumptions made elsewhere. */
  lemma NetworkDrains(c: Config, steps: seq<Step>) returns (longer: seq<Step>)
    requires Supported(c) && IsRun(c, steps)
    ensures Extends(steps, longer) && IsRun(c, longer) && Quiet(Run(c, longer))
    ensures KeepsAssumptions(Run(c, steps), Run(c, longer))
  {
    RunsKeepInv(c, steps);
    longer := DrainsWithin(c, steps, Total(c, Run(c, steps), c.worldSize));
  }

  /** One request each, requests before party starts: from any point, deliveries alone bring all
      replicas to agree on exactly the unserved tickets. */
  lemma ReplicasConverge(c: Config, steps: seq<Step>) returns (longer: seq<Step>)
    requires Supported(c) && IsRun(c, steps) && OneShot(Run(c, steps)) && RequestFirst(Run(c, steps))
    ensures Extends(steps, longer) && IsRun(c, longer) && Quiet(Run(c, longer))
    ensures OneShot(Run(c, longer)) && RequestFirst(Run(c, longer))
    ensures forall q, t :: 0 <= q < |Run(c, longer)| ==>
              (t in Run(c, longer)[q].node.queue <==> Unserved(Run(c, longer), t))
  {
    longer := NetworkDrains(c, steps);
    var s := Run(c, longer);
    forall q, t | 0 <= q < |s| ensures t in s[q].node.queue <==> Unserved(s, t) {
      QuietQueues(c, s, q, t);
    }
  }

  /** The same for processes that ask again, as long as no stale reply has come or is coming. */
  lemma OrderlyReplicasConverge(c: Config, steps: seq<Step>) returns (longer: seq<Step>)
    requires Supported(c) && IsRun(c, steps) && CausalDelivery(Run(c, steps)) && NothingStale(Run(c, steps))
    ensures Extends(steps, longer) && IsRun(c, longer) && Quiet(Run(c, longer))
    ensures Orderly(c, Run(c, longer)) && NothingStale(Run(c, longer))
    ensures forall q, t :: 0 <= q < |Run(c, longer)| ==>
              (t in Run(c, longer)[q].node.queue <==> TicketUnserved(Run(c, longer), t))
  {
    longer := NetworkDrains(c, steps);
    var s := Run(c, longer);
    RunsKeepInv(c, longer);
    UnstaleStarts(c, s);
    forall q, t | 0 <= q < |s| ensures t in s[q].node.queue <==> TicketUnserved(s, t) {
      QuietTickets(c, s, q, t);
    }
  }

  lemma {:induction false} DrainsWithin(c: Config, steps: seq<Step>, left: nat) returns (longer: seq<Step>)
    requires Supported(c) && IsRun(c, steps) && Inv(c, Run(c, steps))
    requires Total(c, Run(c, steps), c.worldSize) <= left
    ensures Extends(steps, longer) && IsRun(c, longer) && Quiet(Run(c, longer))
    ensures KeepsAssumptions(Run(c, steps), Run(c, longer))
    decreases left
  {
    if Quiet(Run(c, steps)) {
      longer := steps;
    } else {
      var d := SomeDelivery(c, steps);
      longer := DrainsWithin(c, steps + [d], left - 1);
      ExtendsMore(steps, d, longer);
    }
  }

  lemma ExtendsMore(steps: seq<Step>, d: Step, longer: seq<Step>)
    requires d.Deliver? && Extends(steps + [d], longer)
    ensures Extends(steps, longer)
  {
    assert longer[..|steps|] == longer[..|steps| + 1][..|steps|];
    assert longer[|steps|] == longer[..|steps| + 1][|steps|] == d;
  }

  lemma SomeDelivery(c: Config, steps: seq<Step>) returns (d: Step)
    requires Supported(c) && IsRun(c, steps) && Inv(c, Run(c, steps)) && !Quiet(Run(c, steps))
    ensures d.Deliver? && IsRun(c, steps + [d]) && Inv(c, Run(c, steps + [d]))
    ensures KeepsAssumptions(Run(c, steps), Run(c, steps + [d]))
    ensures Total(c, Run(c, steps + [d]), c.worldSize) + 1 <= Total(c, Run(c, steps), c.worldSize)
  {
    var s := Run(c, steps);
    var p, q :| 0 <= p < |s| && 0 <= q < |s[p].out| && s[p].out[q] != [];
    var from, to := SmallestUnderWay(c, s, p, q, 0);
    d := Deliver(from, to);
    StepReachable(c, steps, d);
    SmallestKeepsAll(c, s, from, to);
    StepLowersTotal(c, s, d);
  }

  lemma StepReachable(c: Config, steps: seq<Step>, d: Step)
    requires Supported(c) && IsRun(c, steps) && Enabled(c, Run(c, steps), d)
    ensures Reachable(c, Run(c, steps))
    ensures IsRun(c, steps + [d]) && Run(c, steps + [d]) == Next(c, Run(c, steps), d)
  {
    assert (steps + [d])[..|steps|] == steps;
  }

  lemma SmallestKeepsAll(c: Config, s: System, from: nat, to: nat)
    requires Supported(c) && Reachable(c, s) && SmallestHead(s, from, to) && Enabled(c, s, Deliver(from, to))
    ensures KeepsAssumptions(s, Next(c, s, Deliver(from, to)))
  {
    ReachableInv(c, s);
    if OneShot(s) { OneShotKept(c, s, Deliver(from, to)); }
    if RequestFirst(s) { RequestFirstKept(c, s, from, to); }
    SmallestIsInTurn(c, s, from, to);
    if CausalDelivery(s) { CausalKept(c, s, Deliver(from, to)); }
    if ChainDelivery(s) { ChainKept(c, s, Deliver(from, to)); }
    if NothingStale(s) { NothingStaleKept(c, s, from, to); }
  }
}
