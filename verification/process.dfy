/** One process with its local event source, its outgoing channels and its history. */
module Process {
  import opened Types
  import opened NodeModel

  // ---------- The local event source ----------

  datatype LocalState = LocalState(shouldWant: bool, notified: NotifyKind)

  function InitLocal(): LocalState {
    LocalState(true, ExitedParty)
  }

  predicate MayWant(l: LocalState) {
    l.shouldWant && !l.notified.EnteredParty?
  }

  predicate MayRelease(l: LocalState) {
    l.notified.EnteredParty?
  }

  function Notified(l: LocalState, kind: NotifyKind): LocalState {
    LocalState(l.shouldWant || kind.ExitedParty?, kind)
  }

  function NotifyAll(l: LocalState, actions: seq<Action>): LocalState {
    if actions == [] then l
    else
      var before := NotifyAll(l, actions[..|actions| - 1]);
      match actions[|actions| - 1]
      case Notify(kind) => Notified(before, kind)
      case _ => before
  }

  // ---------- Outgoing channels ----------

  /** What an action puts on the channel to `q`; a broadcast skips its sender. */
  function Posted(me: nat, a: Action, q: nat): seq<Message> {
    match a
    case Send(to, m) => if to == q then [m] else []
    case Broadcast(m) => if q != me then [m] else []
    case Notify(_) => []
  }

  function OutTo(me: nat, actions: seq<Action>, q: nat): seq<Message> {
    if actions == [] then []
    else OutTo(me, actions[..|actions| - 1], q) + Posted(me, actions[|actions| - 1], q)
  }

  function Post(me: nat, out: seq<seq<Message>>, actions: seq<Action>): seq<seq<Message>> {
    seq(|out|, q requires 0 <= q < |out| => out[q] + OutTo(me, actions, q))
  }

  // ---------- History ----------

  /** Everything a process took in and everything it did, in order. */
  datatype Entry = In(event: Event) | Out(action: Action)

  function Outs(actions: seq<Action>): seq<Entry> {
    seq(|actions|, i requires 0 <= i < |actions| => Out(actions[i]))
  }

  datatype Proc = Proc(node: NodeState, local: LocalState, out: seq<seq<Message>>, trace: seq<Entry>)

  function InitProc(me: nat, c: Config): Proc {
    Proc(InitNode(me, c), InitLocal(), seq(c.worldSize, _ => []), [])
  }

  /** All actions executed in order, once the node has moved on to `node`. */
  function Executed(me: nat, pr: Proc, ev: Event, node: NodeState, actions: seq<Action>): Proc {
    Proc(node, NotifyAll(pr.local, actions), Post(me, pr.out, actions), pr.trace + [In(ev)] + Outs(actions))
  }

  /** Handling one event: the node steps, then its actions are executed. */
  function React(c: Config, me: nat, pr: Proc, ev: Event): Proc
    requires Handles(c, me, pr.node, ev)
  {
    var (node, actions) := NodeStep(c, me, pr.node, ev);
    Executed(me, pr, ev, node, actions)
  }

  lemma TrackerKept(c: Config, me: nat, pr: Proc, ev: Event)
    requires Handles(c, me, pr.node, ev)
    ensures |React(c, me, pr, ev).node.tracker| == c.worldSize
    ensures |React(c, me, pr, ev).out| == |pr.out|
  {
  }

  /** The only directed message a node sends goes back to where the event came from. */
  lemma RepliesToPeers(c: Config, me: nat, n: NodeState, ev: Event)
    requires Handles(c, me, n, ev)
    ensures var actions := NodeStep(c, me, n, ev).1;
            forall i :: 0 <= i < |actions| && actions[i].Send? ==> ev.Net? && actions[i].to == ev.from
  {
  }

  // ---------- One iteration of the event loop ----------

  ghost predicate Receivable(c: Config, net: seq<Event>) {
    forall i :: 0 <= i < |net| ==> net[i].Net? && net[i].from < c.worldSize
  }

  function ReactAll(c: Config, me: nat, pr: Proc, net: seq<Event>): (after: Proc)
    requires c.bearWeight > 0 && me < c.worldSize && |pr.node.tracker| == c.worldSize
    requires Receivable(c, net)
    ensures |after.node.tracker| == c.worldSize && |after.out| == |pr.out|
  {
    if net == [] then pr
    else
      var before := ReactAll(c, me, pr, net[..|net| - 1]);
      TrackerKept(c, me, before, net[|net| - 1]);
      React(c, me, before, net[|net| - 1])
  }

  /** At most one local event per poll; wanting is remembered until the party is over. */
  function PollLocal(c: Config, me: nat, pr: Proc, coin: bool, expired: bool): Proc
    requires c.bearWeight > 0 && me < c.worldSize && |pr.node.tracker| == c.worldSize
  {
    if MayWant(pr.local) && coin then Wanting(c, me, pr)
    else if MayRelease(pr.local) && expired then React(c, me, pr, Local(ReleaseParty))
    else pr
  }

  function Wanting(c: Config, me: nat, pr: Proc): Proc
    requires c.bearWeight > 0 && me < c.worldSize && |pr.node.tracker| == c.worldSize
  {
    React(c, me, pr.(local := pr.local.(shouldWant := false)), Local(WantParty))
  }
}

/** The local event source as an object. The coin and the elapsed time come from outside. */
module LocalSource {
  import opened Types
  import P = Process

  class LocalThread {
    var shouldWant: bool
    var notified: NotifyKind

    ghost function View(): P.LocalState
      reads this
    {
      P.LocalState(shouldWant, notified)
    }

    constructor ()
      ensures View() == P.InitLocal() && shouldWant && notified == ExitedParty
    {
      shouldWant := true;
      notified := ExitedParty;
    }

    /** Wanting and releasing exclude each other, so a poll yields at most one event. */
    method Poll(coin: bool, expired: bool) returns (events: seq<LocalKind>)
      modifies this
      ensures events == if P.MayWant(old(View())) && coin then [WantParty]
                        else if P.MayRelease(old(View())) && expired then [ReleaseParty]
                        else []
      ensures View() == if P.MayWant(old(View())) && coin then old(View()).(shouldWant := false) else old(View())
      ensures WantParty in events <==> old(shouldWant) && old(notified) != EnteredParty && coin
      ensures ReleaseParty in events <==> old(notified) == EnteredParty && expired
      ensures notified == old(notified) && (shouldWant <==> old(shouldWant) && WantParty !in events)
    {
      events := [];
      if shouldWant && notified != EnteredParty && coin {
        events := events + [WantParty];
        shouldWant := false;
      }
      if notified == EnteredParty && expired {
        events := events + [ReleaseParty];
      }
    }

    method OnNotify(kind: NotifyKind)
      modifies this
      ensures View() == P.Notified(old(View()), kind)
      ensures notified == kind && (shouldWant <==> old(shouldWant) || kind == ExitedParty)
    {
      notified := kind;
      if kind == ExitedParty {
        shouldWant := true;
      }
    }
  }
}

/** The event loop of one process, executing actions one by one. */
module EventLoop {
  import opened Types
  import A = LamportAlgorithm
  import M = NodeModel
  import L = LocalSource
  import P = Process

  class Runtime {
    const self: nat
    const algorithm: A.LamportQueueAlgorithm
    const localSrc: L.LocalThread
    /** Messages handed to the transport, one row per destination. */
    var out: seq<seq<Message>>
    ghost var trace: seq<P.Entry>

    ghost function Repr(): set<object> {
      {this, localSrc} + algorithm.Repr()
    }

    ghost predicate Valid()
      reads Repr()
    {
      algorithm.Valid() && self == algorithm.myPid && |out| == algorithm.cfg.worldSize
    }

    ghost function View(): P.Proc
      reads Repr()
    {
      P.Proc(algorithm.View(), localSrc.View(), out, trace)
    }

    constructor (self: nat, cfg: Config)
      requires cfg.bearWeight > 0 && self < cfg.worldSize
      ensures Valid() && fresh(Repr())
      ensures algorithm.cfg == cfg && this.self == self && View() == P.InitProc(self, cfg)
    {
      this.self := self;
      algorithm := new A.LamportQueueAlgorithm(self, cfg);
      localSrc := new L.LocalThread();
      out := seq(cfg.worldSize, _ => []);
      trace := [];
    }

    method Broadcast(m: Message)
      requires Valid()
      modifies this`out
      ensures |out| == |old(out)|
      ensures forall q :: 0 <= q < |out| ==> out[q] == if q == self then old(out)[q] else old(out)[q] + [m]
    {
      var pid := 0;
      while pid < |out|
        invariant 0 <= pid <= |out| == |old(out)|
        invariant forall q :: 0 <= q < pid ==> out[q] == if q == self then old(out)[q] else old(out)[q] + [m]
        invariant forall q :: pid <= q < |out| ==> out[q] == old(out)[q]
      {
        if pid != self {
          out := out[pid := out[pid] + [m]];
        }
        pid := pid + 1;
      }
    }

    method Execute(action: Action)
      requires Valid() && (action.Send? ==> action.to < |out|)
      modifies this`out, localSrc
      ensures Valid() && algorithm.View() == old(algorithm.View())
      ensures forall q :: 0 <= q < |out| ==> out[q] == old(out)[q] + P.Posted(self, action, q)
      ensures localSrc.View() == if action.Notify? then P.Notified(old(localSrc.View()), action.kind) else old(localSrc.View())
      ensures action.Send? ==> out == old(out)[action.to := old(out)[action.to] + [action.msg]]
      ensures action.Notify? ==> out == old(out)
    {
      match action
      case Send(to, m) => out := out[to := out[to] + [m]];
      case Broadcast(m) => Broadcast(m);
      case Notify(kind) => localSrc.OnNotify(kind);
    }

    /** One by one, the actions add up to the closed form. */
    method DrainActions(actions: seq<Action>)
      requires Valid()
      requires forall i :: 0 <= i < |actions| && actions[i].Send? ==> actions[i].to < |out|
      modifies this`out, localSrc
      ensures Valid() && algorithm.View() == old(algorithm.View())
      ensures out == P.Post(self, old(out), actions)
      ensures localSrc.View() == P.NotifyAll(old(localSrc.View()), actions)
    {
      var i := 0;
      while i < |actions|
        invariant 0 <= i <= |actions| && Valid() && |out| == |old(out)|
        invariant algorithm.View() == old(algorithm.View())
        invariant forall q :: 0 <= q < |out| ==> out[q] == old(out)[q] + P.OutTo(self, actions[..i], q)
        invariant localSrc.View() == P.NotifyAll(old(localSrc.View()), actions[..i])
      {
        assert actions[..i + 1][..i] == actions[..i];
        Execute(actions[i]);
        i := i + 1;
      }
      assert actions[..i] == actions;
    }

    method Record(ev: Event, actions: seq<Action>, ghost before: P.Proc)
      requires Valid()
      requires before.(node := algorithm.View()) == View()
      requires forall i :: 0 <= i < |actions| && actions[i].Send? ==> actions[i].to < |out|
      modifies this`out, this`trace, localSrc
      ensures Valid()
      ensures View() == P.Executed(self, before, ev, old(algorithm.View()), actions)
    {
      trace := trace + [P.In(ev)] + P.Outs(actions);
      DrainActions(actions);
    }

    method Dispatch(ev: Event)
      requires Valid() && M.Handles(algorithm.cfg, self, algorithm.View(), ev)
      requires ev.Net? ==> ev.from < algorithm.cfg.worldSize
      modifies Repr()
      ensures Valid()
      ensures View() == P.React(algorithm.cfg, self, old(View()), ev)
    {
      ghost var before := View();
      P.RepliesToPeers(algorithm.cfg, self, before.node, ev);
      var actions := algorithm.HandleEvent(ev);
      Record(ev, actions, before);
    }

    /** One turn of the loop: the received batch in order, then the local source. */
    method RunOnce(net: seq<Event>, coin: bool, expired: bool)
      requires Valid() && P.Receivable(algorithm.cfg, net)
      modifies Repr()
      ensures Valid()
      ensures View() == P.PollLocal(algorithm.cfg, self, P.ReactAll(algorithm.cfg, self, old(View()), net), coin, expired)
    {
      var i := 0;
      while i < |net|
        invariant 0 <= i <= |net| && Valid()
        invariant View() == P.ReactAll(algorithm.cfg, self, old(View()), net[..i])
      {
        assert net[..i + 1][..i] == net[..i];
        Dispatch(net[i]);
        i := i + 1;
      }
      assert net[..i] == net;
      PollOnce(coin, expired);
    }

    /** The local source is asked once, and its event, if it has one, handled like any other. */
    method PollOnce(coin: bool, expired: bool)
      requires Valid()
      modifies Repr()
      ensures Valid()
      ensures View() == P.PollLocal(algorithm.cfg, self, old(View()), coin, expired)
    {
      var events := localSrc.Poll(coin, expired);
      if events != [] {
        Dispatch(Local(events[0]));
      }
    }
  }
}
