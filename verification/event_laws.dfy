/** What each event does to a process, field by field and from its inputs alone, whatever state the
    process is in. The laws leave no choice: together they are equivalent to the transition function. */
module EventLaws {
  import opened Types
  import opened Queue
  import opened NodeModel
  import Parties

  // ---------- What an event is, for the process that handles it ----------

  /** One more than the later of the two. */
  function Past(now: nat, ts: nat): nat {
    if now < ts then ts + 1 else now + 1
  }

  /** The clock right after the event, before anything follows from it. */
  function TimeOf(now: nat, ev: Event): nat {
    match ev
    case Local(_) => now + 1
    case Net(_, Request(t)) => Past(now, t.ts)
    case Net(_, Reply(s, _)) => Past(now, s.ts)
    case Net(_, PartyStart(s, _, _)) => Past(now, s.ts)
  }

  predicate Invites(ev: Event, me: nat) {
    ev.Net? && ev.msg.PartyStart? && me in ev.msg.participants
  }

  predicate IsReplyFrom(ev: Event, q: nat) {
    ev.Net? && ev.msg.Reply? && ev.from == q
  }

  /** A message that may make something follow: any, but a party start that names the receiver. */
  predicate Moves(ev: Event, me: nat) {
    ev.Net? && !Invites(ev, me)
  }

  /** With this event everybody has replied. */
  predicate Completes(n: NodeState, me: nat, ev: Event) {
    Moves(ev, me) && n.state.WaitingForReplies? && forall q :: 0 <= q < |n.tracker| ==> n.tracker[q] || IsReplyFrom(ev, q)
  }

  /** Who is queued once the event is in, and before a party of one's own. */
  ghost predicate QueuedWith(n: NodeState, me: nat, ev: Event, u: Ticket) {
    match ev
    case Local(WantParty) => if n.state.Idle? then u == Ticket(me, n.clock + 1) || (u in n.queue && u.pid != me) else u in n.queue
    case Local(ReleaseParty) => u in n.queue
    case Net(_, Request(t)) => u == t || (u in n.queue && u.pid != t.pid)
    case Net(_, Reply(_, _)) => u in n.queue
    case Net(_, PartyStart(_, _, members)) => u in n.queue && u.pid !in members
  }

  /** The policy's choice for a queue whose tickets are those. */
  ghost predicate Chooses(c: Config, n: NodeState, me: nat, ev: Event, group: seq<nat>)
    requires c.bearWeight > 0
  {
    exists q: seq<Ticket> :: Holds(n, me, ev, q) && q != [] && q[0].pid == me && BuildParty(c, q) == Some(group)
  }

  ghost predicate Holds(n: NodeState, me: nat, ev: Event, q: seq<Ticket>) {
    WellFormed(q) && forall u :: u in q <==> QueuedWith(n, me, ev, u)
  }

  /** The process starts a party with this group. */
  ghost predicate Starts(c: Config, n: NodeState, me: nat, ev: Event, group: seq<nat>)
    requires c.bearWeight > 0
  {
    MayStart(n, me, ev) && Chooses(c, n, me, ev, group)
  }

  /** Everybody has replied: with this event, or before it. A reply that comes later changes nothing. */
  predicate MayStart(n: NodeState, me: nat, ev: Event) {
    Completes(n, me, ev) || (Moves(ev, me) && n.state.Queued? && !ev.msg.Reply?)
  }

  // ---------- The laws ----------

  function One(b: bool): nat {
    if b then 1 else 0
  }

  /** `group` is the party the process starts on the event, if it starts one. */
  ghost predicate Lawful(c: Config, me: nat, n: NodeState, ev: Event, group: Option<seq<nat>>, n': NodeState, actions: seq<Action>)
    requires c.bearWeight > 0
  {
    && Decided(c, me, n, ev, group)
    && Follows(c, me, n, ev, group, n', actions)
  }

  ghost predicate Decided(c: Config, me: nat, n: NodeState, ev: Event, group: Option<seq<nat>>)
    requires c.bearWeight > 0
  {
    match group
    case Some(g) => Starts(c, n, me, ev, g)
    case None => forall g :: !Starts(c, n, me, ev, g)
  }

  /** The process after the event, and what it does. */
  ghost predicate Follows(c: Config, me: nat, n: NodeState, ev: Event, group: Option<seq<nat>>, n': NodeState, actions: seq<Action>) {
    && n'.clock == TimeOf(n.clock, ev) + One(Completes(n, me, ev)) + One(group.Some?)
    && n'.state == StateAfter(n, me, ev, group.Some?)
    && LawfulQueue(n, me, ev, group, n'.queue)
    && n'.party == PartyAfter(n, me, ev, group, n'.clock)
    && n'.pending == PendingAfter(n, me, ev, group.Some?)
    && LawfulTracker(c, n, me, ev, group.Some?, n'.tracker)
    && n'.partyCounter == (if group.Some? then In32(n.partyCounter + 1) else n.partyCounter)
    && actions == ActionsOf(n, me, ev, group, n'.clock)
  }

  function In32(x: nat): nat {
    x % 0x1_0000_0000
  }

  function StateAfter(n: NodeState, me: nat, ev: Event, starts: bool): AppState {
    if ev == Local(ReleaseParty) then Idle
    else if ev == Local(WantParty) then if n.state.Idle? then WaitingForReplies else n.state
    else if Invites(ev, me) || starts then InParty
    else if Completes(n, me, ev) then Queued
    else n.state
  }

  ghost predicate LawfulQueue(n: NodeState, me: nat, ev: Event, group: Option<seq<nat>>, q: seq<Ticket>) {
    WellFormed(q) && forall u :: u in q <==> QueuedWith(n, me, ev, u) && (group.Some? ==> u.pid !in group.value)
  }

  /** Whoever is named enters that party, wherever it comes from; only a release ends one. */
  function PartyAfter(n: NodeState, me: nat, ev: Event, group: Option<seq<nat>>, now: nat): Option<Party> {
    if ev == Local(ReleaseParty) then None
    else if Invites(ev, me) then
      Some(Party(ev.msg.leaderTicket.pid, In32(ev.msg.partyId), ev.msg.participants))
    else if group.Some? then Some(Party(me, In32(n.partyCounter + now), group.value))
    else n.party
  }

  function PendingAfter(n: NodeState, me: nat, ev: Event, starts: bool): Option<Ticket> {
    if ev == Local(ReleaseParty) || Invites(ev, me) || starts then None
    else if ev == Local(WantParty) && n.state.Idle? then Some(Ticket(me, n.clock + 1))
    else n.pending
  }

  predicate LawfulTracker(c: Config, n: NodeState, me: nat, ev: Event, starts: bool, tracker: seq<bool>) {
    && |tracker| == c.worldSize == |n.tracker|
    && forall q :: 0 <= q < c.worldSize ==> tracker[q] == Marked(n, me, ev, starts, q)
  }

  /** Whether the reply of `q` counts as received. */
  predicate Marked(n: NodeState, me: nat, ev: Event, starts: bool, q: nat)
    requires q < |n.tracker|
  {
    if ev == Local(ReleaseParty) || Invites(ev, me) || starts then false
    else if ev == Local(WantParty) && n.state.Idle? then q == me
    else n.tracker[q] || (n.state.WaitingForReplies? && IsReplyFrom(ev, q))
  }

  /** The answer to a request first, then the party, entered before it is announced. */
  function ActionsOf(n: NodeState, me: nat, ev: Event, group: Option<seq<nat>>, now: nat): seq<Action> {
    match ev
    case Local(WantParty) => if n.state.Idle? then [Broadcast(Request(Ticket(me, n.clock + 1)))] else []
    case Local(ReleaseParty) => [Notify(ExitedParty)]
    case Net(from, m) =>
      if Invites(ev, me) then [Notify(EnteredParty)]
      else (if m.Request? then [Send(from, Reply(Ticket(me, Past(n.clock, m.requestTicket.ts)), m.requestTicket))] else [])
           + (if group.Some? then Announcement(n.partyCounter, me, group.value, now) else [])
  }

  function Announcement(counter: nat, me: nat, group: seq<nat>, now: nat): seq<Action> {
    [Notify(EnteredParty), Broadcast(PartyStart(Ticket(me, now), In32(counter + now), group))]
  }

  // ---------- The transition function obeys them ----------

  ghost predicate Sound(c: Config, me: nat, n: NodeState, ev: Event) {
    Supported(c) && Handles(c, me, n, ev) && WellFormed(n.queue) && Parties.PidsBelow(n.queue, c.worldSize)
    && (ev.Net? && ev.msg.Request? ==> ev.msg.requestTicket.pid < c.worldSize)
  }

  /** The queue once the event is in. */
  function Settled(n: NodeState, me: nat, ev: Event): seq<Ticket> {
    match ev
    case Local(WantParty) => if n.state.Idle? then Enqueue(n.queue, Ticket(me, n.clock + 1)) else n.queue
    case Local(ReleaseParty) => n.queue
    case Net(_, Request(t)) => Enqueue(n.queue, t)
    case Net(_, Reply(_, _)) => n.queue
    case Net(_, PartyStart(_, _, members)) => RemoveAll(n.queue, members)
  }

  lemma SettledHolds(c: Config, me: nat, n: NodeState, ev: Event)
    requires WellFormed(n.queue)
    ensures Holds(n, me, ev, Settled(n, me, ev))
    ensures forall q :: Holds(n, me, ev, q) ==> q == Settled(n, me, ev)
  {
    match ev {
      case Local(WantParty) => InsertContents(n.queue, Ticket(me, n.clock + 1));
      case Local(ReleaseParty) =>
      case Net(_, Request(t)) => InsertContents(n.queue, t);
      case Net(_, Reply(_, _)) =>
      case Net(_, PartyStart(_, _, members)) => RemoveAllContents(n.queue, members);
    }
    forall q | Holds(n, me, ev, q) ensures q == Settled(n, me, ev) {
      SortedIsCanonical(q, Settled(n, me, ev));
    }
  }

  function GroupOf(c: Config, me: nat, n: NodeState, ev: Event): Option<seq<nat>>
    requires c.bearWeight > 0
  {
    if MayStart(n, me, ev) && AmLeader(me, Settled(n, me, ev)) then
      BuildParty(c, Settled(n, me, ev))
    else None
  }

  lemma GroupIsStarted(c: Config, me: nat, n: NodeState, ev: Event)
    requires c.bearWeight > 0 && WellFormed(n.queue)
    ensures forall g :: Starts(c, n, me, ev, g) <==> GroupOf(c, me, n, ev) == Some(g)
  {
    SettledHolds(c, me, n, ev);
    forall g ensures Starts(c, n, me, ev, g) <==> GroupOf(c, me, n, ev) == Some(g) {
      if GroupOf(c, me, n, ev) == Some(g) {
        assert Holds(n, me, ev, Settled(n, me, ev));
      }
    }
  }

  /** The laws leave no choice. */
  lemma LawsDecide(c: Config, me: nat, n: NodeState, ev: Event, g: Option<seq<nat>>, n1: NodeState, a1: seq<Action>,
                   h: Option<seq<nat>>, n2: NodeState, a2: seq<Action>)
    requires c.bearWeight > 0 && WellFormed(n.queue)
    requires Lawful(c, me, n, ev, g, n1, a1) && Lawful(c, me, n, ev, h, n2, a2)
    ensures g == h && n1 == n2 && a1 == a2
  {
    GroupIsStarted(c, me, n, ev);
    assert g == h;
    SortedIsCanonical(n1.queue, n2.queue);
    assert n1.tracker == n2.tracker;
  }

  /** A recomputation, spelled out. */
  lemma RecomputeLaw(c: Config, me: nat, n: NodeState)
    requires Supported(c) && WellFormed(n.queue) && Parties.PidsBelow(n.queue, c.worldSize)
    ensures var full := n.state.WaitingForReplies? && AllReplies(n);
            var n1 := if full then n.(clock := n.clock + 1, state := Queued) else n;
            Recompute(c, me, n) ==
            if n1.state.Queued? && AmLeader(me, n.queue) && BuildParty(c, n.queue).Some?
            then StartParty(c, me, n1, BuildParty(c, n.queue).value) else (n1, [])
  {
    if AmLeader(me, n.queue) && BuildParty(c, n.queue).Some? {
      Parties.BuiltPartyIsValid(c, n.queue);
      assert BuildParty(c, n.queue).value[0] == me;
    }
  }

  /** What a message leads to: `n1` is the process once the message is in. */
  ghost predicate Received(c: Config, me: nat, n: NodeState, ev: Event, n1: NodeState) {
    && n1.clock == TimeOf(n.clock, ev) && n1.state == n.state && n1.queue == Settled(n, me, ev)
    && n1.party == n.party && n1.pending == n.pending && n1.partyCounter == n.partyCounter
    && |n1.tracker| == |n.tracker|
    && forall q :: 0 <= q < |n.tracker| ==>
         n1.tracker[q] == (n.tracker[q] || (n.state.WaitingForReplies? && IsReplyFrom(ev, q)))
  }

  /** What goes out before anything else: the answer to a request. */
  function Answer(n: NodeState, me: nat, ev: Event): seq<Action>
    requires ev.Net?
  {
    if ev.msg.Request? then
      [Send(ev.from, Reply(Ticket(me, Past(n.clock, ev.msg.requestTicket.ts)), ev.msg.requestTicket))]
    else []
  }

  /** The process that has noticed that it is queued, if it is by now. */
  function Noticed(n: NodeState, me: nat, ev: Event, n1: NodeState): NodeState {
    if Completes(n, me, ev) then n1.(clock := n1.clock + 1, state := Queued) else n1
  }

  lemma RestIsLawful(c: Config, me: nat, n: NodeState, ev: Event, n1: NodeState)
    requires Sound(c, me, n, ev) && Moves(ev, me) && Received(c, me, n, ev, n1)
    requires forall g :: !Starts(c, n, me, ev, g)
    ensures Lawful(c, me, n, ev, None, Noticed(n, me, ev, n1), Answer(n, me, ev))
  {
    SettledHolds(c, me, n, ev);
    assert Answer(n, me, ev) + [] == Answer(n, me, ev);
  }

  lemma StartFollows(c: Config, me: nat, n: NodeState, ev: Event, n1: NodeState, group: seq<nat>)
    requires |n.tracker| == c.worldSize && Moves(ev, me) && Received(c, me, n, ev, n1)
    requires LawfulQueue(n, me, ev, Some(group), RemoveAll(n1.queue, group))
    ensures var (n', actions) := StartParty(c, me, Noticed(n, me, ev, n1), group);
            Follows(c, me, n, ev, Some(group), n', Answer(n, me, ev) + actions)
  {
    var n2 := Noticed(n, me, ev, n1);
    StartedFields(c, me, n2, group);
    StartedActions(n, me, ev, group, n2.clock + 1);
    assert LawfulTracker(c, n, me, ev, true, NoReplies(c));
  }

  lemma StartedFields(c: Config, me: nat, n: NodeState, group: seq<nat>)
    ensures var (n', actions) := StartParty(c, me, n, group);
            && n'.clock == n.clock + 1 && n'.state == InParty && n'.queue == RemoveAll(n.queue, group)
            && n'.party == Some(Party(me, In32(n.partyCounter + (n.clock + 1)), group))
            && n'.pending == None && n'.tracker == NoReplies(c) && n'.partyCounter == In32(n.partyCounter + 1)
            && actions == Announcement(n.partyCounter, me, group, n.clock + 1)
  {
  }

  lemma StartedActions(n: NodeState, me: nat, ev: Event, group: seq<nat>, now: nat)
    requires Moves(ev, me)
    ensures ActionsOf(n, me, ev, Some(group), now) == Answer(n, me, ev) + Announcement(n.partyCounter, me, group, now)
  {
  }

  lemma PartyLeavesQueue(c: Config, me: nat, n: NodeState, ev: Event, q: seq<Ticket>, group: seq<nat>)
    requires WellFormed(n.queue) && q == Settled(n, me, ev)
    ensures LawfulQueue(n, me, ev, Some(group), RemoveAll(q, group))
  {
    SettledHolds(c, me, n, ev);
    RemoveAllContents(q, group);
  }

  lemma RecomputedIs(c: Config, me: nat, n: NodeState, ev: Event, n1: NodeState)
    requires Sound(c, me, n, ev) && Moves(ev, me) && Received(c, me, n, ev, n1)
    requires n.state.WaitingForReplies? || !ev.msg.Reply?
    ensures var group, n2 := GroupOf(c, me, n, ev), Noticed(n, me, ev, n1);
            Recompute(c, me, n1) == if group.Some? then StartParty(c, me, n2, group.value) else (n2, [])
  {
    SettledBelow(c, me, n, ev);
    RecomputeLaw(c, me, n1);
    FullWhenComplete(n, me, ev, n1);
  }

  lemma ReceivedIsLawful(c: Config, me: nat, n: NodeState, ev: Event, n1: NodeState, n': NodeState, rest: seq<Action>)
    requires Sound(c, me, n, ev) && Moves(ev, me) && Received(c, me, n, ev, n1)
    requires n.state.WaitingForReplies? || !ev.msg.Reply?
    requires (n', rest) == Recompute(c, me, n1)
    ensures Lawful(c, me, n, ev, GroupOf(c, me, n, ev), n', Answer(n, me, ev) + rest)
  {
    RecomputedIs(c, me, n, ev, n1);
    GroupIsStarted(c, me, n, ev);
    if GroupOf(c, me, n, ev).Some? {
      var group := GroupOf(c, me, n, ev).value;
      PartyLeavesQueue(c, me, n, ev, n1.queue, group);
      StartFollows(c, me, n, ev, n1, group);
    } else {
      RestIsLawful(c, me, n, ev, n1);
      assert Answer(n, me, ev) + [] == Answer(n, me, ev);
    }
  }

  lemma FullWhenComplete(n: NodeState, me: nat, ev: Event, n1: NodeState)
    requires Moves(ev, me) && n1.state == n.state && |n1.tracker| == |n.tracker|
    requires forall q :: 0 <= q < |n.tracker| ==>
               n1.tracker[q] == (n.tracker[q] || (n.state.WaitingForReplies? && IsReplyFrom(ev, q)))
    ensures (n1.state.WaitingForReplies? && AllReplies(n1)) <==> Completes(n, me, ev)
  {
    if AllReplies(n1) && n1.state.WaitingForReplies? {
      forall q | 0 <= q < |n.tracker| ensures n.tracker[q] || IsReplyFrom(ev, q) {
        assert n1.tracker[q] in n1.tracker;
      }
    }
  }

  lemma SettledBelow(c: Config, me: nat, n: NodeState, ev: Event)
    requires Sound(c, me, n, ev) && ev.Net?
    ensures WellFormed(Settled(n, me, ev)) && Parties.PidsBelow(Settled(n, me, ev), c.worldSize)
  {
    SettledHolds(c, me, n, ev);
  }

  lemma InvitedIsLawful(c: Config, me: nat, n: NodeState, ev: Event)
    requires Sound(c, me, n, ev) && Invites(ev, me)
    ensures var (n', actions) := NodeStep(c, me, n, ev); Lawful(c, me, n, ev, None, n', actions)
  {
    RemoveAllContents(n.queue, ev.msg.participants);
    RemoveAllTwice(n.queue, ev.msg.participants);
  }

  lemma LocalIsLawful(c: Config, me: nat, n: NodeState, kind: LocalKind)
    requires Sound(c, me, n, Local(kind))
    ensures var (n', actions) := NodeStep(c, me, n, Local(kind)); Lawful(c, me, n, Local(kind), None, n', actions)
  {
    InsertContents(n.queue, Ticket(me, n.clock + 1));
  }

  /** How each handler hands over to the recomputation. */
  lemma HandlersSplit(c: Config, me: nat, n: NodeState, ev: Event, n1: NodeState)
    requires Handles(c, me, n, ev) && ev.Net? && n1 == Taken(n, ev)
    ensures Moves(ev, me) && (n.state.WaitingForReplies? || !ev.msg.Reply?) ==>
              NodeStep(c, me, n, ev) == (Recompute(c, me, n1).0, Answer(n, me, ev) + Recompute(c, me, n1).1)
    ensures ev.msg.Reply? && !n.state.WaitingForReplies? ==> NodeStep(c, me, n, ev) == (n1, [])
  {
    assert [] + Recompute(c, me, n1).1 == Recompute(c, me, n1).1;
  }

  /** The process once a message is in. */
  function Taken(n: NodeState, ev: Event): NodeState
    requires ev.Net? && (ev.msg.Reply? ==> ev.from < |n.tracker|)
  {
    match ev.msg
    case Request(t) => n.(clock := Past(n.clock, t.ts), queue := Enqueue(n.queue, t))
    case Reply(s, _) =>
      var n1 := n.(clock := Past(n.clock, s.ts));
      if n.state.WaitingForReplies? then MarkReply(n1, ev.from) else n1
    case PartyStart(s, _, members) => n.(clock := Past(n.clock, s.ts), queue := RemoveAll(n.queue, members))
  }

  lemma MessageIsLawful(c: Config, me: nat, n: NodeState, ev: Event)
    requires Sound(c, me, n, ev) && Moves(ev, me)
    ensures var (n', actions) := NodeStep(c, me, n, ev); Lawful(c, me, n, ev, GroupOf(c, me, n, ev), n', actions)
  {
    var n1 := Taken(n, ev);
    HandlersSplit(c, me, n, ev, n1);
    if n.state.WaitingForReplies? || !ev.msg.Reply? {
      var (n', rest) := Recompute(c, me, n1);
      ReceivedIsLawful(c, me, n, ev, n1, n', rest);
    } else {
      GroupIsStarted(c, me, n, ev);
      RestIsLawful(c, me, n, ev, n1);
    }
  }

  lemma StepIsLawful(c: Config, me: nat, n: NodeState, ev: Event)
    requires Sound(c, me, n, ev)
    ensures var (n', actions) := NodeStep(c, me, n, ev); Lawful(c, me, n, ev, GroupOf(c, me, n, ev), n', actions)
  {
    match ev
    case Local(kind) => LocalIsLawful(c, me, n, kind);
    case Net(_, _) =>
      if Invites(ev, me) {
        InvitedIsLawful(c, me, n, ev);
      } else {
        MessageIsLawful(c, me, n, ev);
      }
  }

  /** The transition function is exactly what the laws say, whatever state the process is in. */
  lemma HandledExactly(c: Config, me: nat, n: NodeState, ev: Event, n': NodeState, actions: seq<Action>)
    requires Sound(c, me, n, ev)
    ensures NodeStep(c, me, n, ev) == (n', actions) <==> exists group :: Lawful(c, me, n, ev, group, n', actions)
  {
    StepIsLawful(c, me, n, ev);
    var (n1, a1) := NodeStep(c, me, n, ev);
    if group :| Lawful(c, me, n, ev, group, n', actions) {
      LawsDecide(c, me, n, ev, group, n', actions, GroupOf(c, me, n, ev), n1, a1);
    }
  }

  // ---------- Particular laws ----------

  predicate Announces(actions: seq<Action>) {
    exists i :: 0 <= i < |actions| && actions[i].Broadcast? && actions[i].msg.PartyStart?
  }

  /** The clock moves past what it knew and what it was told, once more if the event makes the replies
      complete, and once more if a party is announced. */
  lemma ClockLaw(c: Config, me: nat, n: NodeState, ev: Event)
    requires Sound(c, me, n, ev)
    ensures var (n', actions) := NodeStep(c, me, n, ev);
            n'.clock == TimeOf(n.clock, ev) + One(Completes(n, me, ev)) + One(Announces(actions))
  {
    StepIsLawful(c, me, n, ev);
    AnnouncesWhenStarting(c, me, n, ev, GroupOf(c, me, n, ev), NodeStep(c, me, n, ev).0.clock);
  }

  lemma AnnouncesWhenStarting(c: Config, me: nat, n: NodeState, ev: Event, group: Option<seq<nat>>, now: nat)
    requires group.Some? ==> Moves(ev, me)
    ensures Announces(ActionsOf(n, me, ev, group, now)) <==> group.Some?
  {
    if group.Some? {
      var actions := ActionsOf(n, me, ev, group, now);
      assert actions[|actions| - 1].Broadcast? && actions[|actions| - 1].msg.PartyStart?;
    }
  }

  /** Whoever is named enters the party and says so, whatever it was doing. */
  lemma InvitedEnters(c: Config, me: nat, n: NodeState, ev: Event)
    requires Sound(c, me, n, ev) && Invites(ev, me)
    ensures var (n', actions) := NodeStep(c, me, n, ev);
            && n'.state == InParty && actions == [Notify(EnteredParty)]
            && n'.party == Some(Party(ev.msg.leaderTicket.pid, In32(ev.msg.partyId), ev.msg.participants))
            && n'.pending == None && !HasPid(n'.queue, me)
  {
    InvitedIsLawful(c, me, n, ev);
  }
}
