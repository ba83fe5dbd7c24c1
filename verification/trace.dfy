/** The local invariant: the state of a process is a function of its history, and every entry of
    that history was justified by what preceded it. */
module Traces {
  import opened Types
  import opened Queue
  import opened NodeModel
  import opened Process
  import Parties
  import Clock

  // ---------- What a history amounts to ----------

  datatype Summary = Summary(
    queue: seq<Ticket>,             // inserted and not removed since
    pending: Option<Ticket>,        // last own request, unless named in a party since
    replied: set<nat>,              // who replied since the last own request
    maxStamp: nat,                  // largest timestamp sent or received
    owed: Option<(nat, Ticket)>)    // a request taken in and not yet answered

  function Blank(): Summary {
    Summary([], None, {}, 0, None)
  }

  function Later(a: nat, b: nat): nat {
    if a < b then b else a
  }

  function Advance(me: nat, v: Summary, e: Entry): Summary {
    match e
    case In(Net(from, Request(t))) =>
      v.(queue := Enqueue(v.queue, t), maxStamp := Later(v.maxStamp, t.ts), owed := Some((from, t)))
    case In(Net(from, Reply(s, _))) =>
      v.(replied := v.replied + {from}, maxStamp := Later(v.maxStamp, s.ts))
    case In(Net(_, PartyStart(s, _, members))) => Start(me, v, s, members)
    case Out(Send(_, m)) => v.(maxStamp := Later(v.maxStamp, Stamp(m)), owed := None)
    case Out(Broadcast(Request(t))) =>
      v.(queue := Enqueue(v.queue, t), pending := Some(t), replied := {}, maxStamp := Later(v.maxStamp, t.ts))
    case Out(Broadcast(PartyStart(s, _, members))) => Start(me, v, s, members)
    case Out(Broadcast(Reply(s, _))) => v.(maxStamp := Later(v.maxStamp, s.ts))
    case _ => v
  }

  function Start(me: nat, v: Summary, s: Ticket, members: seq<nat>): Summary {
    v.(queue := RemoveAll(v.queue, members),
       pending := if me in members then None else v.pending,
       maxStamp := Later(v.maxStamp, s.ts))
  }

  function After(me: nat, v: Summary, es: seq<Entry>): Summary {
    if es == [] then v else Advance(me, After(me, v, es[..|es| - 1]), es[|es| - 1])
  }

  function SummaryOf(me: nat, tr: seq<Entry>): Summary {
    After(me, Blank(), tr)
  }

  // ---------- What justifies an entry ----------

  /** A message from one process to another makes sense on its own. */
  ghost predicate GoodMessage(c: Config, from: nat, to: nat, m: Message) {
    match m
    case Request(t) => t.pid == from
    case Reply(s, t) => s.pid == from && t.pid == to && t.ts < s.ts
    case PartyStart(s, id, members) => s.pid == from && id < TWO_32 && Parties.ValidParty(c, from, members)
  }

  /** A party starts only on a full set of replies, from the head of the queue, as the policy says. */
  ghost predicate GoodStart(c: Config, me: nat, v: Summary, members: seq<nat>) {
    && v.pending.Some? && v.queue != [] && v.queue[0] == v.pending.value
    && (forall q :: 0 <= q < c.worldSize && q != me ==> q in v.replied)
    && c.bearWeight > 0 && BuildParty(c, v.queue) == Some(members)
  }

  ghost predicate EntryOk(c: Config, me: nat, v: Summary, e: Entry) {
    match e
    case In(Local(_)) => v.owed.None?
    case In(Net(from, m)) => v.owed.None? && from < c.worldSize && from != me && GoodMessage(c, from, me, m)
    case Out(Send(to, m)) =>
      && m.Reply? && v.owed == Some((to, m.answered))
      && to < c.worldSize && to != me && GoodMessage(c, me, to, m) && v.maxStamp < Stamp(m)
    case Out(Broadcast(m)) =>
      && !m.Reply? && v.owed.None? && GoodMessage(c, me, me, m) && v.maxStamp < Stamp(m)
      && (m.Request? ==> v.pending.None?)
      && (m.PartyStart? ==> GoodStart(c, me, v, m.participants))
    case Out(Notify(_)) => v.owed.None?
  }

  ghost predicate OkFrom(c: Config, me: nat, v: Summary, es: seq<Entry>) {
    forall i :: 0 <= i < |es| ==> EntryOk(c, me, After(me, v, es[..i]), es[i])
  }

  ghost predicate TraceOk(c: Config, me: nat, tr: seq<Entry>) {
    OkFrom(c, me, Blank(), tr)
  }

  // ---------- How the process state reads off its history ----------

  ghost predicate TrackerShows(c: Config, me: nat, n: NodeState, v: Summary)
    requires |n.tracker| == c.worldSize
  {
    match n.state
    case Idle => n.tracker == NoReplies(c)
    case InParty => n.tracker == NoReplies(c)
    case WaitingForReplies => forall q :: 0 <= q < c.worldSize ==> (n.tracker[q] <==> q == me || q in v.replied)
    case Queued =>
      && (forall q :: 0 <= q < c.worldSize ==> n.tracker[q])
      && (forall q :: 0 <= q < c.worldSize && q != me ==> q in v.replied)
  }

  ghost predicate Coherent(c: Config, me: nat, n: NodeState, l: LocalState, v: Summary) {
    && |n.tracker| == c.worldSize && TrackerShows(c, me, n, v)
    && n.queue == v.queue && WellFormed(n.queue) && Parties.PidsBelow(n.queue, c.worldSize)
    && n.pending == v.pending
    && v.maxStamp <= n.clock
    && v.owed.None?
    && (if n.state.WaitingForReplies? || n.state.Queued? then
          && n.pending.Some? && n.pending.value.pid == me && n.pending.value in n.queue
          && !l.shouldWant
        else n.pending.None? && !HasPid(n.queue, me))
    && (n.state.Idle? ==> l.shouldWant)
    && (n.state.InParty? <==> l.notified.EnteredParty?)
  }

  /** Nothing is left to recompute: no complete set of replies, no party that could start now. */
  ghost predicate Settled(c: Config, me: nat, n: NodeState)
    requires c.bearWeight > 0
  {
    && (n.state.WaitingForReplies? ==> !AllReplies(n))
    && (n.state.Queued? && AmLeader(me, n.queue) ==> BuildParty(c, n.queue).None?)
  }

  ghost predicate ProcOk(c: Config, me: nat, pr: Proc)
    requires c.bearWeight > 0
  {
    && |pr.out| == c.worldSize
    && TraceOk(c, me, pr.trace)
    && Coherent(c, me, pr.node, pr.local, SummaryOf(me, pr.trace))
    && Settled(c, me, pr.node)
  }

  // ---------- Extending a history ----------

  lemma AfterSnoc(me: nat, v: Summary, es: seq<Entry>, e: Entry)
    ensures After(me, v, es + [e]) == Advance(me, After(me, v, es), e)
  {
    assert (es + [e])[..|es|] == es;
  }

  lemma OkSnoc(c: Config, me: nat, v: Summary, es: seq<Entry>, e: Entry)
    requires OkFrom(c, me, v, es) && EntryOk(c, me, After(me, v, es), e)
    ensures OkFrom(c, me, v, es + [e])
  {
    forall i | 0 <= i < |es + [e]| ensures EntryOk(c, me, After(me, v, (es + [e])[..i]), (es + [e])[i]) {
      assert (es + [e])[..i] == es[..i];
      assert i == |es| ==> es[..i] == es;
    }
  }

  lemma {:induction false} AfterConcat(me: nat, v: Summary, a: seq<Entry>, b: seq<Entry>)
    ensures After(me, v, a + b) == After(me, After(me, v, a), b)
  {
    if b == [] {
      assert a + b == a;
    } else {
      AfterConcat(me, v, a, b[..|b| - 1]);
      assert (a + b)[..|a + b| - 1] == a + b[..|b| - 1];
    }
  }

  lemma OkConcat(c: Config, me: nat, v: Summary, a: seq<Entry>, b: seq<Entry>)
    requires OkFrom(c, me, v, a) && OkFrom(c, me, After(me, v, a), b)
    ensures OkFrom(c, me, v, a + b)
  {
    forall i | 0 <= i < |a + b| ensures EntryOk(c, me, After(me, v, (a + b)[..i]), (a + b)[i]) {
      if i < |a| {
        assert (a + b)[..i] == a[..i];
      } else {
        assert (a + b)[..i] == a + b[..i - |a|];
        AfterConcat(me, v, a, b[..i - |a|]);
      }
    }
  }

  // ---------- One event keeps the local invariant ----------

  /** What a handler does after its event `e`, as far as the invariant is concerned. */
  ghost predicate Keeps(c: Config, me: nat, l: LocalState, v: Summary, n: NodeState, actions: seq<Action>)
    requires c.bearWeight > 0
  {
    && OkFrom(c, me, v, Outs(actions))
    && Coherent(c, me, n, NotifyAll(l, actions), After(me, v, Outs(actions)))
    && Settled(c, me, n)
  }

  lemma NoActions(c: Config, me: nat, l: LocalState, v: Summary, n: NodeState)
    requires c.bearWeight > 0 && Coherent(c, me, n, l, v) && Settled(c, me, n)
    ensures Keeps(c, me, l, v, n, [])
  {
    assert Outs([]) == [];
  }

  lemma OneAction(me: nat, l: LocalState, v: Summary, a: Action)
    ensures Outs([a]) == [Out(a)]
    ensures After(me, v, Outs([a])) == Advance(me, v, Out(a))
    ensures NotifyAll(l, [a]) == if a.Notify? then Notified(l, a.kind) else l
  {
    assert [Out(a)][..0] == [];
    assert [a][..0] == [];
  }

  lemma OneOk(c: Config, me: nat, v: Summary, e: Entry)
    requires EntryOk(c, me, v, e)
    ensures OkFrom(c, me, v, [e])
  {
    assert [e][..0] == [];
  }

  lemma {:induction false} NotifyConcat(l: LocalState, a: seq<Action>, b: seq<Action>)
    ensures NotifyAll(l, a + b) == NotifyAll(NotifyAll(l, a), b)
  {
    if b == [] {
      assert a + b == a;
    } else {
      NotifyConcat(l, a, b[..|b| - 1]);
      assert (a + b)[..|a + b| - 1] == a + b[..|b| - 1];
    }
  }

  /** First one justified action, then the rest. */
  lemma FirstAction(c: Config, me: nat, l: LocalState, v: Summary, n: NodeState, a: Action, rest: seq<Action>)
    requires c.bearWeight > 0 && EntryOk(c, me, v, Out(a))
    requires Keeps(c, me, if a.Notify? then Notified(l, a.kind) else l, Advance(me, v, Out(a)), n, rest)
    ensures Keeps(c, me, l, v, n, [a] + rest)
  {
    OneAction(me, l, v, a);
    OneOk(c, me, v, Out(a));
    assert Outs([a] + rest) == Outs([a]) + Outs(rest);
    OkConcat(c, me, v, Outs([a]), Outs(rest));
    AfterConcat(me, v, Outs([a]), Outs(rest));
    NotifyConcat(l, [a], rest);
  }

  lemma PartyCoherent(c: Config, me: nat, n: NodeState, l: LocalState, v: Summary, n': NodeState,
                      leader: nat, id: nat, members: seq<nat>, s: Ticket)
    requires Supported(c) && WellFormed(n.queue) && Parties.PidsBelow(n.queue, c.worldSize)
    requires n.queue == v.queue && v.owed.None? && v.maxStamp <= n.clock && s.ts <= n.clock
    requires me in members && me < c.worldSize
    requires n' == GoToParty(c, n, leader, id, members)
    ensures Coherent(c, me, n', Notified(l, EnteredParty), Start(me, v, s, members)) && Settled(c, me, n')
  {
    RemoveAllContents(n.queue, members);
  }

  lemma StartKeeps(c: Config, me: nat, n: NodeState, l: LocalState, v: Summary, members: seq<nat>)
    requires Supported(c) && me < c.worldSize && Coherent(c, me, n, l, v)
    requires GoodStart(c, me, v, members) && Parties.ValidParty(c, me, members)
    ensures var (n', actions) := StartParty(c, me, n, members); Keeps(c, me, l, v, n', actions)
  {
    assert members[0] in members;
    var now := n.clock + 1;
    var id := (n.partyCounter + now) % TWO_32;
    var n1 := n.(clock := now, partyCounter := (n.partyCounter + 1) % TWO_32);
    var n' := GoToParty(c, n1, me, id, members);
    var ps := Broadcast(PartyStart(Ticket(me, now), id, members));
    PartyCoherent(c, me, n1, l, v, n', me, id, members, Ticket(me, now));
    NoActions(c, me, Notified(l, EnteredParty), Advance(me, v, Out(ps)), n');
    FirstAction(c, me, Notified(l, EnteredParty), v, n', ps, []);
    assert [ps] + [] == [ps];
    FirstAction(c, me, l, v, n', Notify(EnteredParty), [ps]);
    assert [Notify(EnteredParty)] + [ps] == [Notify(EnteredParty), ps];
  }

  lemma LeadKeeps(c: Config, me: nat, n: NodeState, l: LocalState, v: Summary)
    requires Supported(c) && me < c.worldSize && Coherent(c, me, n, l, v)
    requires !n.state.WaitingForReplies?
    ensures var (n', actions) := Lead(c, me, n); Keeps(c, me, l, v, n', actions)
  {
    if n.state.Queued? && AmLeader(me, n.queue) && BuildParty(c, n.queue).Some? {
      var members := BuildParty(c, n.queue).value;
      Parties.BuiltPartyIsValid(c, n.queue);
      assert members[0] in members;
      HeadIsPending(c, me, n, l, v);
      StartKeeps(c, me, n, l, v, members);
    } else {
      NoActions(c, me, l, v, n);
    }
  }

  lemma HeadIsPending(c: Config, me: nat, n: NodeState, l: LocalState, v: Summary)
    requires Coherent(c, me, n, l, v) && n.state.Queued? && AmLeader(me, n.queue)
    ensures v.queue[0] == v.pending.value
  {
    SamePidSameTicket(n.queue);
    assert n.queue[0] in n.queue;
  }

  lemma FullMeansQueued(c: Config, me: nat, n: NodeState, l: LocalState, v: Summary)
    requires Coherent(c, me, n, l, v) && n.state.WaitingForReplies? && AllReplies(n)
    ensures Coherent(c, me, n.(clock := n.clock + 1, state := Queued), l, v)
  {
    assert forall q :: 0 <= q < c.worldSize ==> n.tracker[q] in n.tracker;
  }

  lemma RecomputeKeeps(c: Config, me: nat, n: NodeState, l: LocalState, v: Summary)
    requires Supported(c) && me < c.worldSize && Coherent(c, me, n, l, v)
    ensures var (n', actions) := Recompute(c, me, n); Keeps(c, me, l, v, n', actions)
  {
    if n.state.WaitingForReplies? {
      if AllReplies(n) {
        var n1 := n.(clock := n.clock + 1, state := Queued);
        FullMeansQueued(c, me, n, l, v);
        LeadKeeps(c, me, n1, l, v);
      } else {
        NoActions(c, me, l, v, n);
      }
    } else {
      LeadKeeps(c, me, n, l, v);
    }
  }

  lemma RequestKeeps(c: Config, me: nat, n: NodeState, l: LocalState, v: Summary, from: nat, t: Ticket)
    requires Supported(c) && me < c.worldSize && Coherent(c, me, n, l, v)
    requires EntryOk(c, me, v, In(Net(from, Request(t))))
    ensures var (n', actions) := OnRequest(c, me, n, from, t);
            Keeps(c, me, l, Advance(me, v, In(Net(from, Request(t)))), n', actions)
  {
    InsertContents(n.queue, t);
    var n1 := n.(clock := Clock.AfterReceive(n.clock, t.ts), queue := Enqueue(n.queue, t));
    var v1 := Advance(me, v, In(Net(from, Request(t))));
    var reply := Send(from, Reply(Ticket(me, n1.clock), t));
    var v2 := Advance(me, v1, Out(reply));
    assert Coherent(c, me, n1, l, v2);
    RecomputeKeeps(c, me, n1, l, v2);
    var (n', actions) := Recompute(c, me, n1);
    FirstAction(c, me, l, v1, n', reply, actions);
  }

  lemma ReplyKeeps(c: Config, me: nat, n: NodeState, l: LocalState, v: Summary, from: nat, s: Ticket, t: Ticket)
    requires Supported(c) && me < c.worldSize && Coherent(c, me, n, l, v) && Settled(c, me, n)
    requires EntryOk(c, me, v, In(Net(from, Reply(s, t))))
    ensures var (n', actions) := OnReply(c, me, n, from, s);
            Keeps(c, me, l, Advance(me, v, In(Net(from, Reply(s, t)))), n', actions)
  {
    var n1 := n.(clock := Clock.AfterReceive(n.clock, s.ts));
    var v1 := Advance(me, v, In(Net(from, Reply(s, t))));
    if n.state.WaitingForReplies? {
      RecomputeKeeps(c, me, MarkReply(n1, from), l, v1);
    } else {
      assert Coherent(c, me, n1, l, v1);
      NoActions(c, me, l, v1, n1);
    }
  }

  lemma PartyStartKeeps(c: Config, me: nat, n: NodeState, l: LocalState, v: Summary,
                        from: nat, s: Ticket, id: nat, members: seq<nat>)
    requires Supported(c) && me < c.worldSize && Coherent(c, me, n, l, v)
    requires EntryOk(c, me, v, In(Net(from, PartyStart(s, id, members))))
    ensures var (n', actions) := OnPartyStart(c, me, n, s, id, members);
            Keeps(c, me, l, Advance(me, v, In(Net(from, PartyStart(s, id, members)))), n', actions)
  {
    RemoveAllContents(n.queue, members);
    var n1 := n.(clock := Clock.AfterReceive(n.clock, s.ts), queue := RemoveAll(n.queue, members));
    var v1 := Start(me, v, s, members);
    if me in members {
      var n' := GoToParty(c, n1, s.pid, id, members);
      RemoveAllTwice(n.queue, members);
      assert n' == GoToParty(c, n1.(queue := n.queue), s.pid, id, members);
      PartyCoherent(c, me, n1.(queue := n.queue), l, v, n', s.pid, id, members, s);
      NoActions(c, me, Notified(l, EnteredParty), v1, n');
      FirstAction(c, me, l, v1, n', Notify(EnteredParty), []);
      assert [Notify(EnteredParty)] + [] == [Notify(EnteredParty)];
    } else {
      RecomputeKeeps(c, me, n1, l, v1);
    }
  }

  lemma WantKeeps(c: Config, me: nat, n: NodeState, l: LocalState, v: Summary)
    requires Supported(c) && me < c.worldSize && Coherent(c, me, n, l, v) && MayWant(l)
    ensures n.state.Idle?
    ensures var (n', actions) := OnWant(c, me, n);
            Keeps(c, me, l.(shouldWant := false), v, n', actions)
  {
    var t := Ticket(me, n.clock + 1);
    InsertContents(n.queue, t);
    var (n', actions) := OnWant(c, me, n);
    var request := Broadcast(Request(t));
    var v' := Advance(me, v, Out(request));
    var other := if me == 0 then 1 else 0;
    assert !n'.tracker[other];
    NoActions(c, me, l.(shouldWant := false), v', n');
    FirstAction(c, me, l.(shouldWant := false), v, n', request, []);
    assert [request] + [] == [request];
  }

  lemma ReleaseKeeps(c: Config, me: nat, n: NodeState, l: LocalState, v: Summary)
    requires Supported(c) && me < c.worldSize && Coherent(c, me, n, l, v) && MayRelease(l)
    ensures n.state.InParty?
    ensures var (n', actions) := OnRelease(c, n); Keeps(c, me, l, v, n', actions)
  {
    var (n', actions) := OnRelease(c, n);
    NoActions(c, me, Notified(l, ExitedParty), v, n');
    FirstAction(c, me, l, v, n', Notify(ExitedParty), []);
    assert [Notify(ExitedParty)] + [] == [Notify(ExitedParty)];
  }

  /** A local event passes the gate of the local source; a message is a good one from a peer. */
  ghost predicate Admissible(c: Config, me: nat, pr: Proc, ev: Event) {
    match ev
    case Local(WantParty) => MayWant(pr.local)
    case Local(ReleaseParty) => MayRelease(pr.local)
    case Net(from, m) => from < c.worldSize && from != me && GoodMessage(c, from, me, m)
  }

  /** The event as the runtime handles it: a want also clears the flag that raised it. */
  function Handle(c: Config, me: nat, pr: Proc, ev: Event): Proc
    requires Handles(c, me, pr.node, ev)
  {
    if ev == Local(WantParty) then Wanting(c, me, pr) else React(c, me, pr, ev)
  }

  lemma NodeKeeps(c: Config, me: nat, pr: Proc, ev: Event)
    requires Supported(c) && me < c.worldSize && ProcOk(c, me, pr) && Admissible(c, me, pr, ev)
    ensures var (n', actions) := NodeStep(c, me, pr.node, ev);
            Keeps(c, me, if ev == Local(WantParty) then pr.local.(shouldWant := false) else pr.local,
                  Advance(me, SummaryOf(me, pr.trace), In(ev)), n', actions)
  {
    var v := SummaryOf(me, pr.trace);
    match ev
    case Local(WantParty) => WantKeeps(c, me, pr.node, pr.local, v);
    case Local(ReleaseParty) => ReleaseKeeps(c, me, pr.node, pr.local, v);
    case Net(from, Request(t)) => RequestKeeps(c, me, pr.node, pr.local, v, from, t);
    case Net(from, Reply(s, t)) => ReplyKeeps(c, me, pr.node, pr.local, v, from, s, t);
    case Net(from, PartyStart(s, id, members)) => PartyStartKeeps(c, me, pr.node, pr.local, v, from, s, id, members);
  }

  lemma ExecutedOk(c: Config, me: nat, pr: Proc, l: LocalState, ev: Event, node: NodeState, actions: seq<Action>)
    requires c.bearWeight > 0 && ProcOk(c, me, pr) && EntryOk(c, me, SummaryOf(me, pr.trace), In(ev))
    requires Keeps(c, me, l, Advance(me, SummaryOf(me, pr.trace), In(ev)), node, actions)
    ensures ProcOk(c, me, Executed(me, pr.(local := l), ev, node, actions))
  {
    OkSnoc(c, me, Blank(), pr.trace, In(ev));
    AfterSnoc(me, Blank(), pr.trace, In(ev));
    OkConcat(c, me, Blank(), pr.trace + [In(ev)], Outs(actions));
    AfterConcat(me, Blank(), pr.trace + [In(ev)], Outs(actions));
  }

  /** One event, whatever it is, keeps the local invariant. */
  lemma HandleKeeps(c: Config, me: nat, pr: Proc, ev: Event)
    requires Supported(c) && me < c.worldSize && ProcOk(c, me, pr) && Admissible(c, me, pr, ev)
    ensures ProcOk(c, me, Handle(c, me, pr, ev))
  {
    NodeKeeps(c, me, pr, ev);
    var (node, actions) := NodeStep(c, me, pr.node, ev);
    ExecutedOk(c, me, pr, if ev == Local(WantParty) then pr.local.(shouldWant := false) else pr.local, ev, node, actions);
  }

  lemma InitOk(c: Config, me: nat)
    requires Supported(c)
    ensures ProcOk(c, me, InitProc(me, c))
  {
  }
}
