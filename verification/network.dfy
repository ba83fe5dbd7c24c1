/** The whole system: N processes and one FIFO channel per ordered pair. */
module Network {
  import opened Types
  import opened NodeModel
  import opened Process
  import opened Traces

  /** `s[p].out[q]` is the channel from `p` to `q`, oldest message first. */
  type System = seq<Proc>

  datatype Step = Deliver(from: nat, to: nat) | Want(who: nat) | Release(who: nat)

  function InitSystem(c: Config): System {
    seq(c.worldSize, (me: nat) => InitProc(me, c))
  }

  ghost predicate Shaped(c: Config, s: System) {
    && |s| == c.worldSize
    && forall p :: 0 <= p < |s| ==> |s[p].out| == c.worldSize && |s[p].node.tracker| == c.worldSize
  }

  /** Any waiting message may be delivered next; local events obey the local source. */
  ghost predicate Enabled(c: Config, s: System, step: Step) {
    && Shaped(c, s)
    && match step
       case Deliver(from, to) => from < |s| && to < |s| && s[from].out[to] != []
       case Want(p) => p < |s| && MayWant(s[p].local)
       case Release(p) => p < |s| && MayRelease(s[p].local)
  }

  function Actor(step: Step): nat {
    match step
    case Deliver(_, to) => to
    case Want(p) => p
    case Release(p) => p
  }

  /** The event a step raises at its actor. */
  function Raised(c: Config, s: System, step: Step): Event
    requires Enabled(c, s, step)
  {
    match step
    case Deliver(from, to) => Net(from, s[from].out[to][0])
    case Want(_) => Local(WantParty)
    case Release(_) => Local(ReleaseParty)
  }

  function Popped(pr: Proc, to: nat): Proc
    requires to < |pr.out| && pr.out[to] != []
  {
    pr.(out := pr.out[to := pr.out[to][1..]])
  }

  /** The system once the step's message has left its channel. */
  function Taken(c: Config, s: System, step: Step): System
    requires Enabled(c, s, step)
  {
    match step
    case Deliver(from, to) => s[from := Popped(s[from], to)]
    case _ => s
  }

  function Next(c: Config, s: System, step: Step): System
    requires c.bearWeight > 0 && Enabled(c, s, step)
  {
    var s1 := Taken(c, s, step);
    s1[Actor(step) := Handle(c, Actor(step), s1[Actor(step)], Raised(c, s, step))]
  }

  /** The runs of the system: schedules whose every step is enabled when its turn comes. */
  ghost predicate IsRun(c: Config, steps: seq<Step>)
    requires c.bearWeight > 0
    decreases |steps|, 0
  {
    steps == [] || (IsRun(c, steps[..|steps| - 1]) && Enabled(c, Run(c, steps[..|steps| - 1]), steps[|steps| - 1]))
  }

  ghost function Run(c: Config, steps: seq<Step>): System
    requires c.bearWeight > 0 && IsRun(c, steps)
    decreases |steps|, 1
  {
    if steps == [] then InitSystem(c)
    else Next(c, Run(c, steps[..|steps| - 1]), steps[|steps| - 1])
  }

  // ---------- What went over the channels ----------

  /** Messages a history sends to `q`, in order. */
  function Sends(me: nat, tr: seq<Entry>, q: nat): seq<Message> {
    if tr == [] then []
    else
      Sends(me, tr[..|tr| - 1], q) +
      match tr[|tr| - 1]
      case Out(a) => Posted(me, a, q)
      case In(_) => []
  }

  function Arrived(e: Entry, q: nat): seq<Message> {
    match e
    case In(Net(from, m)) => if from == q then [m] else []
    case _ => []
  }

  /** Messages a history received from `q`, in order. */
  function Recvs(tr: seq<Entry>, q: nat): seq<Message> {
    if tr == [] then [] else Recvs(tr[..|tr| - 1], q) + Arrived(tr[|tr| - 1], q)
  }

  /** FIFO, without loss or invention: what was sent is what was received, then what is under way. */
  ghost predicate Fifo(c: Config, s: System)
    requires Shaped(c, s)
  {
    forall p, q :: 0 <= p < |s| && 0 <= q < |s| ==>
      Sends(p, s[p].trace, q) == Recvs(s[q].trace, p) + s[p].out[q]
  }

  ghost predicate Inv(c: Config, s: System)
    requires c.bearWeight > 0
  {
    && Shaped(c, s)
    && (forall p :: 0 <= p < |s| ==> ProcOk(c, p, s[p]))
    && Fifo(c, s)
  }

  // ---------- Every reachable state satisfies the invariant ----------

  lemma TrafficSnoc(me: nat, tr: seq<Entry>, e: Entry, q: nat)
    ensures Sends(me, tr + [e], q) == Sends(me, tr, q) + (if e.Out? then Posted(me, e.action, q) else [])
    ensures Recvs(tr + [e], q) == Recvs(tr, q) + Arrived(e, q)
  {
    assert (tr + [e])[..|tr|] == tr;
  }

  lemma {:induction false} SendsConcat(me: nat, a: seq<Entry>, b: seq<Entry>, q: nat)
    ensures Sends(me, a + b, q) == Sends(me, a, q) + Sends(me, b, q)
  {
    if b == [] {
      assert a + b == a;
    } else {
      var front, e := b[..|b| - 1], b[|b| - 1];
      SendsConcat(me, a, front, q);
      assert (a + b)[..|a + b| - 1] == a + front;
      ConcatAssoc(Sends(me, a, q), Sends(me, front, q), if e.Out? then Posted(me, e.action, q) else []);
    }
  }

  lemma {:induction false} RecvsConcat(a: seq<Entry>, b: seq<Entry>, q: nat)
    ensures Recvs(a + b, q) == Recvs(a, q) + Recvs(b, q)
  {
    if b == [] {
      assert a + b == a;
    } else {
      var front, e := b[..|b| - 1], b[|b| - 1];
      RecvsConcat(a, front, q);
      assert (a + b)[..|a + b| - 1] == a + front;
      ConcatAssoc(Recvs(a, q), Recvs(front, q), Arrived(e, q));
    }
  }

  lemma ConcatAssoc(a: seq<Message>, b: seq<Message>, c: seq<Message>)
    ensures a + b + c == a + (b + c)
  {
  }

  lemma {:induction false} OutsTraffic(me: nat, actions: seq<Action>, q: nat)
    ensures Sends(me, Outs(actions), q) == OutTo(me, actions, q)
    ensures Recvs(Outs(actions), q) == []
  {
    if actions != [] {
      var n := |actions| - 1;
      OutsTraffic(me, actions[..n], q);
      assert Outs(actions)[..n] == Outs(actions[..n]);
      assert Outs(actions)[n] == Out(actions[n]);
    }
  }

  lemma TraceTraffic(me: nat, tr: seq<Entry>, ev: Event, actions: seq<Action>, q: nat)
    ensures Sends(me, tr + [In(ev)] + Outs(actions), q) == Sends(me, tr, q) + OutTo(me, actions, q)
    ensures Recvs(tr + [In(ev)] + Outs(actions), q) == Recvs(tr, q) + Arrived(In(ev), q)
  {
    SendsConcat(me, tr + [In(ev)], Outs(actions), q);
    RecvsConcat(tr + [In(ev)], Outs(actions), q);
    OutsTraffic(me, actions, q);
    TrafficSnoc(me, tr, In(ev), q);
    assert Recvs(tr, q) + Arrived(In(ev), q) + [] == Recvs(tr, q) + Arrived(In(ev), q);
    assert Sends(me, tr, q) + [] == Sends(me, tr, q);
  }

  /** The actor after a step: its channels and its history grew by the same messages. */
  ghost predicate Grown(c: Config, me: nat, pr: Proc, ev: Event, actions: seq<Action>, pr': Proc) {
    && |pr'.out| == |pr.out|
    && forall q :: 0 <= q < |pr.out| ==>
         && pr'.out[q] == pr.out[q] + OutTo(me, actions, q)
         && Sends(me, pr'.trace, q) == Sends(me, pr.trace, q) + OutTo(me, actions, q)
         && Recvs(pr'.trace, q) == Recvs(pr.trace, q) + Arrived(In(ev), q)
  }

  lemma ExecutedGrows(c: Config, me: nat, pr: Proc, ev: Event, node: NodeState, actions: seq<Action>, l: LocalState)
    ensures Grown(c, me, pr, ev, actions, Executed(me, pr.(local := l), ev, node, actions))
  {
    forall q: nat | q < |pr.out|
      ensures Sends(me, pr.trace + [In(ev)] + Outs(actions), q) == Sends(me, pr.trace, q) + OutTo(me, actions, q)
      ensures Recvs(pr.trace + [In(ev)] + Outs(actions), q) == Recvs(pr.trace, q) + Arrived(In(ev), q)
    {
      TraceTraffic(me, pr.trace, ev, actions, q);
    }
  }

  lemma {:induction false} SentIsLogged(me: nat, tr: seq<Entry>, q: nat, m: Message)
    requires m in Sends(me, tr, q)
    ensures exists i :: 0 <= i < |tr| && tr[i].Out? && m in Posted(me, tr[i].action, q)
  {
    var n := |tr| - 1;
    if m in Sends(me, tr[..n], q) {
      SentIsLogged(me, tr[..n], q, m);
      var i :| 0 <= i < n && tr[..n][i].Out? && m in Posted(me, tr[..n][i].action, q);
      assert tr[i].Out?;
    } else {
      assert tr[n].Out? && m in Posted(me, tr[n].action, q);
    }
  }

  lemma SentIsGood(c: Config, me: nat, tr: seq<Entry>, q: nat, m: Message)
    requires TraceOk(c, me, tr) && m in Sends(me, tr, q)
    ensures GoodMessage(c, me, q, m) && me != q
  {
    SentIsLogged(me, tr, q, m);
    var i :| 0 <= i < |tr| && tr[i].Out? && m in Posted(me, tr[i].action, q);
    assert EntryOk(c, me, After(me, Blank(), tr[..i]), tr[i]);
  }

  lemma DeliveredIsGood(c: Config, s: System, from: nat, to: nat)
    requires c.bearWeight > 0 && Inv(c, s) && Enabled(c, s, Deliver(from, to))
    ensures from != to && GoodMessage(c, from, to, s[from].out[to][0])
  {
    var m := s[from].out[to][0];
    var i := |Recvs(s[to].trace, from)|;
    assert Sends(from, s[from].trace, to)[i] == m;
    SentIsGood(c, from, s[from].trace, to, m);
  }

  lemma RaisedIsAdmissible(c: Config, s: System, step: Step)
    requires c.bearWeight > 0 && Inv(c, s) && Enabled(c, s, step)
    ensures Admissible(c, Actor(step), s[Actor(step)], Raised(c, s, step))
    ensures Taken(c, s, step)[Actor(step)] == s[Actor(step)]
    ensures step.Deliver? ==> step.from != step.to
  {
    if step.Deliver? {
      DeliveredIsGood(c, s, step.from, step.to);
    }
  }

  /** What a step does to the system, with the actor's new state named. */
  lemma StepEffect(c: Config, s: System, step: Step) returns (pr': Proc, actions: seq<Action>)
    requires Supported(c) && Inv(c, s) && Enabled(c, s, step)
    ensures var a := Actor(step);
            && a < |s| && Taken(c, s, step)[a] == s[a]
            && Next(c, s, step) == Taken(c, s, step)[a := pr']
            && ProcOk(c, a, pr') && Grown(c, a, s[a], Raised(c, s, step), actions, pr')
            && pr' == Handle(c, a, s[a], Raised(c, s, step))
            && actions == NodeStep(c, a, s[a].node, Raised(c, s, step)).1
  {
    RaisedIsAdmissible(c, s, step);
    var a, ev := Actor(step), Raised(c, s, step);
    HandleKeeps(c, a, s[a], ev);
    var (node, acts) := NodeStep(c, a, s[a].node, ev);
    pr', actions := Handle(c, a, s[a], ev), acts;
    ExecutedGrows(c, a, s[a], ev, node, acts, if ev == Local(WantParty) then s[a].local.(shouldWant := false) else s[a].local);
  }

  /** What a step adds to the histories: the event and the actions it caused, at the actor only. */
  lemma StepTraces(c: Config, s: System, step: Step) returns (actions: seq<Action>)
    requires Supported(c) && Inv(c, s) && Enabled(c, s, step)
    ensures Actor(step) < |s| == |Next(c, s, step)|
    ensures Next(c, s, step)[Actor(step)].trace == s[Actor(step)].trace + [In(Raised(c, s, step))] + Outs(actions)
    ensures forall p :: 0 <= p < |s| && p != Actor(step) ==> Next(c, s, step)[p].trace == s[p].trace
    ensures Handles(c, Actor(step), s[Actor(step)].node, Raised(c, s, step))
    ensures actions == NodeStep(c, Actor(step), s[Actor(step)].node, Raised(c, s, step)).1
  {
    var pr';
    pr', actions := StepEffect(c, s, step);
    forall p: nat | p < |s| && p != Actor(step) ensures Next(c, s, step)[p].trace == s[p].trace {
      TakenRow(c, s, step, p, p);
    }
  }

  /** What the step takes off the channel from `p` to `q` is what arrives. */
  function Delivered(c: Config, s: System, step: Step, p: nat, q: nat): seq<Message>
    requires Enabled(c, s, step)
  {
    if q == Actor(step) then Arrived(In(Raised(c, s, step)), p) else []
  }

  lemma TakenRow(c: Config, s: System, step: Step, p: nat, q: nat)
    requires Enabled(c, s, step) && p < |s| && q < |s|
    ensures |Taken(c, s, step)[p].out| == c.worldSize
    ensures s[p].out[q] == Delivered(c, s, step, p, q) + Taken(c, s, step)[p].out[q]
    ensures Taken(c, s, step)[p] == s[p].(out := Taken(c, s, step)[p].out)
  {
    if step == Deliver(p, q) {
      assert s[p].out[q] == [s[p].out[q][0]] + s[p].out[q][1..];
    }
  }

  /** What a step does to its actor and the actor's channels. */
  lemma ActorAfter(c: Config, s: System, step: Step, q: nat)
    requires Supported(c) && Inv(c, s) && Enabled(c, s, step) && q < |s|
    ensures var a, s' := Actor(step), Next(c, s, step);
            && a < |s| == |s'| && Handles(c, a, s[a].node, Raised(c, s, step))
            && var (node, actions) := NodeStep(c, a, s[a].node, Raised(c, s, step));
               s'[a].node == node && |s'[a].out| == |s| && s'[a].out[q] == s[a].out[q] + OutTo(a, actions, q)
    ensures forall p :: step != Deliver(Actor(step), p)
  {
    RaisedIsAdmissible(c, s, step);
    var pr', actions := StepEffect(c, s, step);
  }

  /** And to anyone else: only the message delivered goes. */
  lemma OtherAfter(c: Config, s: System, step: Step, p: nat, q: nat)
    requires Supported(c) && Inv(c, s) && Enabled(c, s, step) && p < |s| && q < |s| && p != Actor(step)
    ensures var s' := Next(c, s, step);
            && |s'| == |s| && s'[p].node == s[p].node && |s'[p].out| == |s|
            && s'[p].out[q] == if step == Deliver(p, q) then s[p].out[q][1..] else s[p].out[q]
  {
    RaisedIsAdmissible(c, s, step);
  }

  lemma FifoKept(c: Config, s: System, step: Step, s': System, pr': Proc, actions: seq<Action>, p: nat, q: nat)
    requires c.bearWeight > 0 && Inv(c, s) && Enabled(c, s, step) && p < |s| && q < |s|
    requires Actor(step) < |s| && Taken(c, s, step)[Actor(step)] == s[Actor(step)]
    requires s' == Taken(c, s, step)[Actor(step) := pr']
    requires Grown(c, Actor(step), s[Actor(step)], Raised(c, s, step), actions, pr')
    ensures |s'[p].out| == c.worldSize && Sends(p, s'[p].trace, q) == Recvs(s'[q].trace, p) + s'[p].out[q]
  {
    TakenRow(c, s, step, p, q);
    TakenRow(c, s, step, q, p);
    var emitted := if p == Actor(step) then OutTo(p, actions, q) else [];
    Requeue(Recvs(s[q].trace, p), Delivered(c, s, step, p, q), Taken(c, s, step)[p].out[q], emitted);
  }

  lemma Requeue(received: seq<Message>, delivered: seq<Message>, waiting: seq<Message>, emitted: seq<Message>)
    ensures received + (delivered + waiting) + emitted == received + delivered + (waiting + emitted)
    ensures received + [] == received && waiting + [] == waiting
    ensures received + (delivered + waiting) + [] == received + (delivered + waiting)
  {
  }

  lemma StepKeepsInv(c: Config, s: System, step: Step)
    requires Supported(c) && Inv(c, s) && Enabled(c, s, step)
    ensures Inv(c, Next(c, s, step))
  {
    var pr', actions := StepEffect(c, s, step);
    MoveKeepsInv(c, s, step, Next(c, s, step), pr', actions);
  }

  lemma MovedIsOk(c: Config, s: System, step: Step, s': System, pr': Proc, p: nat)
    requires c.bearWeight > 0 && Enabled(c, s, step) && p < |s| && Actor(step) < |s| && ProcOk(c, p, s[p])
    requires s' == Taken(c, s, step)[Actor(step) := pr'] && ProcOk(c, Actor(step), pr')
    ensures ProcOk(c, p, s'[p])
  {
    TakenRow(c, s, step, p, p);
  }

  lemma MoveKeepsInv(c: Config, s: System, step: Step, s': System, pr': Proc, actions: seq<Action>)
    requires c.bearWeight > 0 && Inv(c, s) && Enabled(c, s, step)
    requires Actor(step) < |s| && Taken(c, s, step)[Actor(step)] == s[Actor(step)]
    requires s' == Taken(c, s, step)[Actor(step) := pr']
    requires ProcOk(c, Actor(step), pr') && Grown(c, Actor(step), s[Actor(step)], Raised(c, s, step), actions, pr')
    ensures Inv(c, s')
  {
    forall p: nat | p < |s'| ensures ProcOk(c, p, s'[p]) {
      MovedIsOk(c, s, step, s', pr', p);
    }
    forall p: nat, q: nat | p < |s'| && q < |s'|
      ensures Sends(p, s'[p].trace, q) == Recvs(s'[q].trace, p) + s'[p].out[q]
    {
      FifoKept(c, s, step, s', pr', actions, p, q);
    }
  }

  lemma {:induction false} RunsKeepInv(c: Config, steps: seq<Step>)
    requires Supported(c) && IsRun(c, steps)
    ensures Inv(c, Run(c, steps))
  {
    if steps == [] {
      forall p | 0 <= p < c.worldSize ensures ProcOk(c, p, InitSystem(c)[p]) {
        InitOk(c, p);
      }
    } else {
      RunsKeepInv(c, steps[..|steps| - 1]);
      StepKeepsInv(c, Run(c, steps[..|steps| - 1]), steps[|steps| - 1]);
    }
  }
}
