/** What a process shows, read off its history alone, in every run: the clock, the party and the party
    counter; the stamp and the party id of every message sent; and what directly follows what. */
module Exactness {
  import opened Types
  import opened NodeModel
  import opened Process
  import opened Traces
  import opened Network
  import opened Histories
  import opened Ordering
  import opened EventLaws
  import Leaders

  // ---------- Reading a history ----------

  /** How many parties the process has started. */
  function StartsIn(tr: seq<Entry>): nat {
    if tr == [] then 0 else StartsIn(tr[..|tr| - 1]) + One(Leads(tr[|tr| - 1]))
  }

  /** Everybody else has replied since the last request. */
  predicate Answered(c: Config, me: nat, v: Summary) {
    v.pending.Some? && forall q :: 0 <= q < c.worldSize && q != me ==> q in v.replied
  }

  /** With this entry the last missing reply comes in. */
  predicate CompletedBy(c: Config, me: nat, v: Summary, e: Entry) {
    e.In? && !Answered(c, me, v) && Answered(c, me, Advance(me, v, e))
  }

  /** The clock after a history: past everything taken in, one more when the replies are complete, one more
      for every party started. */
  function ClockOf(c: Config, me: nat, tr: seq<Entry>): nat {
    if tr == [] then 0
    else
      var n := |tr| - 1;
      match tr[n]
      case In(ev) => TimeOf(ClockOf(c, me, tr[..n]), ev) + One(CompletedBy(c, me, SummaryOf(me, tr[..n]), tr[n]))
      case Out(_) => ClockOf(c, me, tr[..n]) + One(Leads(tr[n]))
  }

  /** The party an entry takes the process to. */
  function EnteredBy(me: nat, e: Entry): Option<Party> {
    match e
    case In(Net(_, PartyStart(s, id, members))) => if me in members then Some(Party(s.pid, id, members)) else None
    case Out(Broadcast(PartyStart(s, id, members))) => if me in members then Some(Party(s.pid, id, members)) else None
    case _ => None
  }

  predicate Leaves(e: Entry) {
    e == In(Local(ReleaseParty))
  }

  /** Entry `i` takes the process to `party`, and nothing since has taken it elsewhere. */
  ghost predicate InPartySince(me: nat, tr: seq<Entry>, i: nat, party: Party) {
    && i < |tr| && EnteredBy(me, tr[i]) == Some(party)
    && forall j :: i < j < |tr| ==> EnteredBy(me, tr[j]).None? && !Leaves(tr[j])
  }

  /** The party a history ends in. */
  function PartyIn(me: nat, tr: seq<Entry>): Option<Party> {
    if tr == [] then None
    else
      var e := tr[|tr| - 1];
      if EnteredBy(me, e).Some? then EnteredBy(me, e)
      else if Leaves(e) then None
      else PartyIn(me, tr[..|tr| - 1])
  }

  lemma {:induction false} PartyInExactly(me: nat, tr: seq<Entry>, party: Party)
    ensures PartyIn(me, tr) == Some(party) <==> exists i: nat :: InPartySince(me, tr, i, party)
  {
    if tr != [] {
      var n := |tr| - 1;
      PartyInExactly(me, tr[..n], party);
      if EnteredBy(me, tr[n]) == Some(party) {
        assert InPartySince(me, tr, n, party);
      }
      if i: nat :| InPartySince(me, tr[..n], i, party) && EnteredBy(me, tr[n]).None? && !Leaves(tr[n]) {
        assert InPartySince(me, tr, i, party);
      }
      if i: nat :| InPartySince(me, tr, i, party) && i < n {
        assert InPartySince(me, tr[..n], i, party);
      }
    }
  }

  // ---------- What follows what ----------

  predicate TakesRequest(e: Entry) {
    e.In? && e.event.Net? && e.event.msg.Request?
  }

  predicate IsReplyTo(e: Entry, q: nat) {
    e.Out? && e.action.Send? && e.action.to == q && e.action.msg.Reply?
  }

  /** An entry that something has to follow at once: being named, being released, being asked. */
  predicate Calls(me: nat, e: Entry) {
    (e.In? && EnteredBy(me, e).Some?) || Leaves(e) || TakesRequest(e)
  }

  /** What `e` calls for. */
  predicate Meets(e: Entry, f: Entry) {
    if TakesRequest(e) then IsReplyTo(f, e.event.from)
    else if Leaves(e) then f == Out(Notify(ExitedParty))
    else f == Out(Notify(EnteredParty))
  }

  /** Whatever an entry calls for comes right after it; a party is announced right after it is entered. */
  ghost predicate FollowedUp(me: nat, tr: seq<Entry>, i: nat)
    requires i < |tr|
  {
    && (Calls(me, tr[i]) ==> i + 1 < |tr| && Meets(tr[i], tr[i + 1]))
    && (Leads(tr[i]) ==> i > 0 && tr[i - 1] == Out(Notify(EnteredParty)))
  }

  predicate Sends(e: Entry) {
    e.Out? && !e.action.Notify?
  }

  /** The count a process makes its party ids from. */
  function CounterOf(c: Config, me: nat, tr: seq<Entry>): nat {
    In32(me * c.partyIdOffset + StartsIn(tr))
  }

  /** The id of a party started after `tr`, at time `now`. */
  function IdOf(c: Config, me: nat, tr: seq<Entry>, now: nat): nat {
    (me * c.partyIdOffset + StartsIn(tr) + now) % 0x1_0000_0000
  }

  /** A message sent shows the clock at that point; a party started, an id of its own making. */
  ghost predicate Stamped(c: Config, me: nat, before: seq<Entry>, e: Entry) {
    && (Sends(e) ==> Stamp(e.action.msg) == ClockOf(c, me, before) + One(Leads(e)))
    && (Leads(e) ==> e.action.msg.partyId == IdOf(c, me, before, Stamp(e.action.msg)))
  }

  ghost predicate WellKept(c: Config, me: nat, tr: seq<Entry>) {
    forall i :: 0 <= i < |tr| ==> FollowedUp(me, tr, i) && Stamped(c, me, tr[..i], tr[i])
  }

  /** A process shows what its history says. */
  ghost predicate Shows(c: Config, me: nat, tr: seq<Entry>, n: NodeState) {
    && n.clock == ClockOf(c, me, tr) && n.partyCounter == CounterOf(c, me, tr)
    && n.party == PartyIn(me, tr) && (n.state.InParty? <==> n.party.Some?)
  }

  ghost predicate Exact(c: Config, me: nat, pr: Proc) {
    Shows(c, me, pr.trace, pr.node) && WellKept(c, me, pr.trace)
  }

  // ---------- Longer histories ----------

  lemma Snoc(me: nat, tr: seq<Entry>, e: Entry)
    ensures StartsIn(tr + [e]) == StartsIn(tr) + One(Leads(e))
    ensures PartyIn(me, tr + [e]) == PartyWith(me, PartyIn(me, tr), e)
  {
    assert (tr + [e])[..|tr|] == tr;
  }

  function PartyWith(me: nat, party: Option<Party>, e: Entry): Option<Party> {
    if EnteredBy(me, e).Some? then EnteredBy(me, e) else if Leaves(e) then None else party
  }

  lemma ClockSnoc(c: Config, me: nat, tr: seq<Entry>, e: Entry)
    ensures ClockOf(c, me, tr + [e]) == ClockWith(c, me, tr, e)
  {
    assert (tr + [e])[..|tr|] == tr;
  }

  function ClockWith(c: Config, me: nat, tr: seq<Entry>, e: Entry): nat {
    match e
    case In(ev) => TimeOf(ClockOf(c, me, tr), ev) + One(CompletedBy(c, me, SummaryOf(me, tr), e))
    case Out(_) => ClockOf(c, me, tr) + One(Leads(e))
  }

  lemma KeptWithOne(c: Config, me: nat, tr: seq<Entry>, e: Entry)
    requires WellKept(c, me, tr) && !Calls(me, e) && !Leads(e) && Stamped(c, me, tr, e)
    ensures WellKept(c, me, tr + [e])
  {
    var tr' := tr + [e];
    forall i | 0 <= i < |tr'| ensures FollowedUp(me, tr', i) && Stamped(c, me, tr'[..i], tr'[i]) {
      assert tr'[..i] == tr[..i];
      assert i < |tr| ==> FollowedUp(me, tr, i) && Stamped(c, me, tr[..i], tr[i]);
      assert tr[..|tr|] == tr;
    }
  }

  /** An entry and what it calls for. */
  lemma KeptWithTwo(c: Config, me: nat, tr: seq<Entry>, e: Entry, f: Entry)
    requires WellKept(c, me, tr) && Stamped(c, me, tr, e) && Stamped(c, me, tr + [e], f)
    requires !Leads(e) && !Calls(me, f)
    requires (Calls(me, e) ==> Meets(e, f)) && (Leads(f) ==> e == Out(Notify(EnteredParty)))
    ensures WellKept(c, me, tr + [e] + [f])
  {
    var tr' := tr + [e] + [f];
    forall i | 0 <= i < |tr'| ensures FollowedUp(me, tr', i) && Stamped(c, me, tr'[..i], tr'[i]) {
      if i < |tr| {
        assert tr'[..i] == tr[..i];
        assert FollowedUp(me, tr, i) && Stamped(c, me, tr[..i], tr[i]);
      } else {
        assert tr'[..|tr|] == tr && tr'[..|tr| + 1] == tr + [e];
      }
    }
  }

  // ---------- One event ----------

  lemma IsSound(c: Config, me: nat, pr: Proc, ev: Event)
    requires Supported(c) && me < c.worldSize && ProcOk(c, me, pr) && Admissible(c, me, pr, ev)
    ensures Sound(c, me, pr.node, ev)
  {
  }

  lemma MissingReply(c: Config, me: nat, n: NodeState, l: LocalState, v: Summary)
    requires c.bearWeight > 0 && me < c.worldSize && Coherent(c, me, n, l, v) && Traces.Settled(c, me, n)
    requires n.state.WaitingForReplies?
    ensures !Answered(c, me, v) && exists q :: 0 <= q < c.worldSize && !n.tracker[q]
  {
    var q :| 0 <= q < c.worldSize && !n.tracker[q];
    assert q != me && q !in v.replied;
  }

  /** The last reply, as the process sees it and as its history shows it. */
  lemma CompletesTogether(c: Config, me: nat, n: NodeState, l: LocalState, v: Summary, ev: Event)
    requires c.bearWeight > 0 && me < c.worldSize && Coherent(c, me, n, l, v) && Traces.Settled(c, me, n)
    ensures Completes(n, me, ev) <==> CompletedBy(c, me, v, In(ev))
  {
    if n.state.WaitingForReplies? {
      MissingReply(c, me, n, l, v);
      forall q: nat | ev.Net? && ev.msg.Reply? && q < c.worldSize
        ensures n.tracker[q] || IsReplyFrom(ev, q) <==> q == me || q in Advance(me, v, In(ev)).replied
      {
      }
    }
  }

  /** An entry and the process after it. */
  ghost predicate Moved(c: Config, me: nat, tr: seq<Entry>, n: NodeState, e: Entry, n1: NodeState) {
    && n1.clock == ClockWith(c, me, tr, e) && n1.party == PartyWith(me, n.party, e)
    && n1.partyCounter == In32(n.partyCounter + One(Leads(e))) && (n1.state.InParty? <==> n1.party.Some?)
  }

  lemma MovedShows(c: Config, me: nat, tr: seq<Entry>, n: NodeState, e: Entry, n1: NodeState)
    requires Shows(c, me, tr, n) && Moved(c, me, tr, n, e, n1)
    ensures Shows(c, me, tr + [e], n1)
  {
    Snoc(me, tr, e);
    ClockSnoc(c, me, tr, e);
    In32Sum(me * c.partyIdOffset + StartsIn(tr), One(Leads(e)));
  }

  lemma In32Sum(a: nat, b: nat)
    ensures In32(In32(a) + b) == In32(a + b)
  {
  }

  /** An action other than a party start changes nothing that is shown. */
  lemma ActionShows(c: Config, me: nat, tr: seq<Entry>, n: NodeState, a: Action)
    requires Shows(c, me, tr, n) && !Leads(Out(a))
    ensures Shows(c, me, tr + [Out(a)], n)
    ensures !a.Notify? && Stamp(a.msg) == n.clock ==> Stamped(c, me, tr, Out(a))
  {
    In32Sum(me * c.partyIdOffset + StartsIn(tr), 0);
    MovedShows(c, me, tr, n, Out(a), n);
  }

  /** An entry with its answer, neither of them a party started. */
  lemma PairShows(c: Config, me: nat, tr: seq<Entry>, n: NodeState, ev: Event, a: Action, n1: NodeState)
    requires Shows(c, me, tr, n) && Moved(c, me, tr, n, In(ev), n1) && WellKept(c, me, tr)
    requires !Leads(Out(a)) && (Calls(me, In(ev)) ==> Meets(In(ev), Out(a)))
    requires !a.Notify? ==> Stamp(a.msg) == n1.clock
    ensures Shows(c, me, tr + [In(ev)] + [Out(a)], n1) && WellKept(c, me, tr + [In(ev)] + [Out(a)])
  {
    MovedShows(c, me, tr, n, In(ev), n1);
    ActionShows(c, me, tr + [In(ev)], n1, a);
    KeptWithTwo(c, me, tr, In(ev), Out(a));
  }

  lemma LocalFollows(c: Config, me: nat, pr: Proc, kind: LocalKind, n': NodeState, actions: seq<Action>)
    requires Exact(c, me, pr) && Follows(c, me, pr.node, Local(kind), None, n', actions)
    requires kind.WantParty? ==> pr.node.state.Idle?
    requires !CompletedBy(c, me, SummaryOf(me, pr.trace), In(Local(kind)))
    ensures Exact(c, me, pr.(node := n', trace := pr.trace + [In(Local(kind))] + Outs(actions)))
  {
    assert Outs(actions) == [Out(actions[0])];
    In32Sum(me * c.partyIdOffset + StartsIn(pr.trace), 0);
    PairShows(c, me, pr.trace, pr.node, Local(kind), actions[0], n');
  }

  lemma InvitedFollows(c: Config, me: nat, pr: Proc, ev: Event, n': NodeState, actions: seq<Action>)
    requires Exact(c, me, pr) && Follows(c, me, pr.node, ev, None, n', actions) && Invites(ev, me)
    requires !CompletedBy(c, me, SummaryOf(me, pr.trace), In(ev)) && ev.msg.partyId < TWO_32
    ensures Exact(c, me, pr.(node := n', trace := pr.trace + [In(ev)] + Outs(actions)))
  {
    assert Outs(actions) == [Out(actions[0])];
    In32Sum(me * c.partyIdOffset + StartsIn(pr.trace), 0);
    PairShows(c, me, pr.trace, pr.node, ev, actions[0], n');
  }

  /** A message is taken in, and answered if it is a request. */
  lemma AnswerFollows(c: Config, me: nat, pr: Proc, ev: Event, n1: NodeState)
    requires Exact(c, me, pr) && Moves(ev, me)
    requires n1.clock == TimeOf(pr.node.clock, ev) + One(CompletedBy(c, me, SummaryOf(me, pr.trace), In(ev)))
    requires ev.msg.Request? ==> !CompletedBy(c, me, SummaryOf(me, pr.trace), In(ev))
    requires n1.party == pr.node.party && n1.partyCounter == pr.node.partyCounter && n1.state == pr.node.state
    ensures Exact(c, me, pr.(node := n1, trace := pr.trace + [In(ev)] + Outs(Answer(pr.node, me, ev))))
  {
    In32Sum(me * c.partyIdOffset + StartsIn(pr.trace), 0);
    assert Moved(c, me, pr.trace, pr.node, In(ev), n1);
    var answer := Answer(pr.node, me, ev);
    if ev.msg.Request? {
      assert Outs(answer) == [Out(answer[0])];
      PairShows(c, me, pr.trace, pr.node, ev, answer[0], n1);
    } else {
      assert pr.trace + [In(ev)] + Outs(answer) == pr.trace + [In(ev)];
      MovedShows(c, me, pr.trace, pr.node, In(ev), n1);
      KeptWithOne(c, me, pr.trace, In(ev));
    }
  }

  lemma AnnouncedIsStamped(c: Config, me: nat, tr: seq<Entry>, n: NodeState, group: seq<nat>, now: nat)
    requires Shows(c, me, tr, n) && now == n.clock + 1
    ensures var actions := Announcement(n.partyCounter, me, group, now);
            Stamped(c, me, tr + [Out(actions[0])], Out(actions[1]))
  {
    var e := Out(Announcement(n.partyCounter, me, group, now)[0]);
    Snoc(me, tr, e);
    ClockSnoc(c, me, tr, e);
    In32Sum(me * c.partyIdOffset + StartsIn(tr), now);
  }

  /** A party follows: entered, then announced. */
  lemma AnnouncementFollows(c: Config, me: nat, pr: Proc, group: seq<nat>, n': NodeState)
    requires Exact(c, me, pr) && me in group && n'.clock == pr.node.clock + 1 && n'.state.InParty?
    requires n'.partyCounter == In32(pr.node.partyCounter + 1)
    requires n'.party == Some(Party(me, In32(pr.node.partyCounter + n'.clock), group))
    ensures Exact(c, me, pr.(node := n', trace := pr.trace + Outs(Announcement(pr.node.partyCounter, me, group, n'.clock))))
  {
    var tr, n := pr.trace, pr.node;
    var actions := Announcement(n.partyCounter, me, group, n'.clock);
    var e, f := Out(actions[0]), Out(actions[1]);
    assert tr + Outs(actions) == tr + [e] + [f];
    ActionShows(c, me, tr, n, actions[0]);
    MovedShows(c, me, tr + [e], n, f, n');
    AnnouncedIsStamped(c, me, tr, n, group, n'.clock);
    KeptWithTwo(c, me, tr, e, f);
  }

  lemma MessageFollows(c: Config, me: nat, pr: Proc, ev: Event, group: Option<seq<nat>>, n': NodeState, actions: seq<Action>)
    requires Exact(c, me, pr) && Moves(ev, me) && Follows(c, me, pr.node, ev, group, n', actions)
    requires Completes(pr.node, me, ev) <==> CompletedBy(c, me, SummaryOf(me, pr.trace), In(ev))
    requires ev.msg.Request? ==> !Completes(pr.node, me, ev)
    requires group.Some? ==> me in group.value && !pr.node.state.InParty?
    ensures Exact(c, me, pr.(node := n', trace := pr.trace + [In(ev)] + Outs(actions)))
  {
    var first := Answer(pr.node, me, ev);
    var n1 := pr.node.(clock := TimeOf(pr.node.clock, ev) + One(Completes(pr.node, me, ev)));
    AnswerFollows(c, me, pr, ev, n1);
    var pr1 := pr.(node := n1, trace := pr.trace + [In(ev)] + Outs(first));
    if group.Some? {
      StartedActions(pr.node, me, ev, group.value, n'.clock);
      AnnouncementFollows(c, me, pr1, group.value, n');
      OutsConcat(pr.trace + [In(ev)], first, Announcement(pr.node.partyCounter, me, group.value, n'.clock));
    } else {
      assert actions == first;
    }
  }

  lemma OutsConcat(tr: seq<Entry>, a: seq<Action>, b: seq<Action>)
    ensures tr + Outs(a + b) == tr + Outs(a) + Outs(b)
  {
  }

  /** What the last reply cannot be. */
  lemma OnlyRepliesComplete(c: Config, me: nat, v: Summary, ev: Event)
    ensures CompletedBy(c, me, v, In(ev)) ==> ev.Net? && ev.msg.Reply?
  {
  }

  lemma ExactAnyway(c: Config, me: nat, pr: Proc, pr': Proc)
    requires Exact(c, me, pr) && pr'.node == pr.node && pr'.trace == pr.trace
    ensures Exact(c, me, pr')
  {
  }

  /** One event, whatever it is, keeps a process what its history says. */
  lemma HandleKeepsExact(c: Config, me: nat, pr: Proc, ev: Event)
    requires Supported(c) && me < c.worldSize && ProcOk(c, me, pr) && Exact(c, me, pr) && Admissible(c, me, pr, ev)
    ensures Exact(c, me, Handle(c, me, pr, ev))
  {
    IsSound(c, me, pr, ev);
    StepIsLawful(c, me, pr.node, ev);
    CompletesTogether(c, me, pr.node, pr.local, SummaryOf(me, pr.trace), ev);
    OnlyRepliesComplete(c, me, SummaryOf(me, pr.trace), ev);
    var (n', actions) := NodeStep(c, me, pr.node, ev);
    match ev {
      case Local(kind) => LocalFollows(c, me, pr, kind, n', actions);
      case Net(_, _) =>
        if Invites(ev, me) {
          InvitedFollows(c, me, pr, ev, n', actions);
        } else {
          GroupHasLeader(c, me, pr.node, ev);
          MessageFollows(c, me, pr, ev, GroupOf(c, me, pr.node, ev), n', actions);
        }
    }
    var pr' := pr.(node := n', trace := pr.trace + [In(ev)] + Outs(actions));
    ExactAnyway(c, me, pr', Handle(c, me, pr, ev));
  }

  lemma GroupHasLeader(c: Config, me: nat, n: NodeState, ev: Event)
    requires Sound(c, me, n, ev) && Moves(ev, me)
    ensures GroupOf(c, me, n, ev).Some? ==> me in GroupOf(c, me, n, ev).value && !n.state.InParty?
  {
    if GroupOf(c, me, n, ev).Some? {
      SettledBelow(c, me, n, ev);
      LeaderIsNeverMissing(c, me, EventLaws.Settled(n, me, ev));
    }
  }

  // ---------- Every run ----------

  ghost predicate AllExact(c: Config, s: System) {
    forall p :: 0 <= p < |s| ==> Exact(c, p, s[p])
  }

  lemma StepKeepsExact(c: Config, s: System, step: Step)
    requires Supported(c) && Inv(c, s) && AllExact(c, s) && Enabled(c, s, step)
    ensures AllExact(c, Next(c, s, step))
  {
    forall p: nat | p < |s| ensures Exact(c, p, Next(c, s, step)[p]) {
      if p == Actor(step) {
        ActorKeepsExact(c, s, step);
      } else {
        TakenRow(c, s, step, p, p);
        ExactAnyway(c, p, s[p], Next(c, s, step)[p]);
      }
    }
  }

  lemma ActorKeepsExact(c: Config, s: System, step: Step)
    requires Supported(c) && Inv(c, s) && AllExact(c, s) && Enabled(c, s, step)
    ensures Exact(c, Actor(step), Next(c, s, step)[Actor(step)])
  {
    var pr', actions := StepEffect(c, s, step);
    RaisedIsAdmissible(c, s, step);
    HandleKeepsExact(c, Actor(step), s[Actor(step)], Raised(c, s, step));
  }

  /** In every run every process is what its history says. */
  lemma {:induction false} RunsAreExact(c: Config, steps: seq<Step>)
    requires Supported(c) && IsRun(c, steps)
    ensures AllExact(c, Run(c, steps))
  {
    if steps != [] {
      var n := |steps| - 1;
      RunsAreExact(c, steps[..n]);
      RunsKeepInv(c, steps[..n]);
      StepKeepsExact(c, Run(c, steps[..n]), steps[n]);
    }
  }

  lemma ReachableIsExact(c: Config, s: System)
    requires Supported(c) && Reachable(c, s)
    ensures Inv(c, s) && AllExact(c, s)
  {
    var steps :| IsRun(c, steps) && Run(c, steps) == s;
    RunsKeepInv(c, steps);
    RunsAreExact(c, steps);
  }

  /** A process is in a party, and in which, exactly as its history says: the last party start that named
      it, its own or another's, unless it has been released since. */
  lemma PartyIsExact(c: Config, s: System, p: nat, party: Party)
    requires Supported(c) && Reachable(c, s) && p < |s|
    ensures s[p].node.party == Some(party) <==> exists i: nat :: InPartySince(p, s[p].trace, i, party)
    ensures s[p].node.state.InParty? <==> s[p].node.party.Some?
  {
    ReachableIsExact(c, s);
    PartyInExactly(p, s[p].trace, party);
  }

  /** A party start that comes to a process it names, a release and a request are followed at once: by the
      two notifications, and by the reply. */
  lemma InvitationsAreTaken(c: Config, s: System, p: nat, i: nat)
    requires Supported(c) && Reachable(c, s) && p < |s| && i < |s[p].trace|
    ensures var tr := s[p].trace;
            && (tr[i].In? && Names(tr[i], p) ==> i + 1 < |tr| && tr[i + 1] == Out(Notify(EnteredParty)))
            && (tr[i] == In(Local(ReleaseParty)) ==> i + 1 < |tr| && tr[i + 1] == Out(Notify(ExitedParty)))
            && (TakesRequest(tr[i]) ==> i + 1 < |tr| && IsReplyTo(tr[i + 1], tr[i].event.from))
  {
    ReachableIsExact(c, s);
    assert FollowedUp(p, s[p].trace, i);
  }

  lemma StampIsClock(c: Config, me: nat, tr: seq<Entry>, i: nat, m: Message)
    requires WellKept(c, me, tr) && i < |tr| && tr[i].Out? && Carries(tr[i], m)
    ensures Stamp(m) == ClockOf(c, me, tr[..i + 1])
  {
    assert Stamped(c, me, tr[..i], tr[i]);
    assert tr[..i + 1] == tr[..i] + [tr[i]];
    ClockSnoc(c, me, tr[..i], tr[i]);
  }

  /** The clock, and the stamp of every message ever sent, to the tick. */
  lemma ClocksAreExact(c: Config, s: System, p: nat, i: nat, m: Message)
    requires Supported(c) && Reachable(c, s) && p < |s|
    ensures s[p].node.clock == ClockOf(c, p, s[p].trace)
    ensures i < |s[p].trace| && s[p].trace[i].Out? && Carries(s[p].trace[i], m) ==>
              Stamp(m) == ClockOf(c, p, s[p].trace[..i + 1])
  {
    ReachableIsExact(c, s);
    if i < |s[p].trace| && s[p].trace[i].Out? && Carries(s[p].trace[i], m) {
      StampIsClock(c, p, s[p].trace, i, m);
    }
  }

  lemma IdIsMade(c: Config, me: nat, tr: seq<Entry>, j: nat)
    requires WellKept(c, me, tr) && j < |tr| && Leads(tr[j])
    ensures tr[j].action.msg.partyId == IdOf(c, me, tr[..j], Stamp(tr[j].action.msg))
  {
    assert Stamped(c, me, tr[..j], tr[j]);
  }

  /** The id of every party: where the leader's count began, how many parties it had started before, and
      the time of the start, in 32 bits. */
  lemma PartyIdsAreExact(c: Config, s: System, p: nat, j: nat)
    requires Supported(c) && Reachable(c, s) && Leaders.LeadsAt(s, p, j)
    ensures var m := Leaders.PartyOf(s, p, j);
            m.partyId == IdOf(c, p, s[p].trace[..j], Stamp(m))
  {
    ReachableIsExact(c, s);
    IdIsMade(c, p, s[p].trace, j);
  }
}
