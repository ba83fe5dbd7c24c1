/** When parties are disjoint, and what a quiet network looks like. */
module Disjointness {
  import opened Types
  import opened Queue
  import opened Process
  import opened Traces
  import opened Network
  import opened Histories
  import opened Ordering
  import opened Leaders
  import Parties

  /** No process is named in two parties. */
  ghost predicate PartiesDisjoint(s: System) {
    forall l, j, m, jm, r ::
      (LeadsAt(s, l, j) && LeadsAt(s, m, jm) && (l, j) != (m, jm) && r in Members(s, l, j)) ==> r !in Members(s, m, jm)
  }

  /** At entry `j` process `l` picks `r` although it had seen `r` named before `r`'s request came. */
  ghost predicate StalePick(s: System, l: nat, j: nat, r: nat, i: nat, k: nat) {
    LeadsAt(s, l, j) && r in Members(s, l, j) && i < k < j
    && Names(s[l].trace[i], r) && PutsPid(s[l].trace[k], r)
  }

  /** No leader picks on a request that came after a party naming its owner. */
  ghost predicate FreshPicks(s: System) {
    forall l, j, r, i, k :: !StalePick(s, l, j, r, i, k)
  }

  /** Nobody handles another's party start naming a third process before that process's request. */
  ghost predicate RequestFirst(s: System) {
    forall p, i, r :: (0 <= p < |s| && 0 <= i < |s[p].trace| && s[p].trace[i].In? && Names(s[p].trace[i], r) && r != p)
      ==> exists k :: 0 <= k < i && PutsPid(s[p].trace[k], r)
  }

  /** For a process's own parties, and for parties naming it, the request comes first anyway. */
  lemma RequestCameFirst(c: Config, s: System, p: nat, i: nat, r: nat) returns (k: nat)
    requires Supported(c) && Inv(c, s) && RequestFirst(s) && p < |s|
    requires i < |s[p].trace| && Names(s[p].trace[i], r)
    ensures k < i && PutsPid(s[p].trace[k], r)
  {
    if r == p {
      k := NamedAfterAsking(c, s, p, i);
      assert EntryOk(c, p, SummaryOf(p, s[p].trace[..k]), s[p].trace[k]);
    } else if s[p].trace[i].Out? {
      var x, e := NamedWasQueued(c, s, p, i, r);
      assert s[p].trace[..i][e] == s[p].trace[e];
      k := e;
    } else {
      k :| 0 <= k < i && PutsPid(s[p].trace[k], r);
    }
  }

  // ---------- Disjointness, exactly ----------

  /** A process in two parties: the younger leader picked it on a late request. */
  lemma SharedIsStale(c: Config, s: System, l: nat, j: nat, m: nat, jm: nat, r: nat) returns (i: nat, k: nat)
    requires Supported(c) && Reachable(c, s) && OneShot(s)
    requires LeadsAt(s, l, j) && LeadsAt(s, m, jm) && r in Members(s, l, j) && r in Members(s, m, jm)
    requires Before(LeadTicket(s, l, j), LeadTicket(s, m, jm))
    ensures StalePick(s, m, jm, r, i, k)
  {
    ReachableInv(c, s);
    i := LeadersAreOrdered(c, s, l, j, m, jm);
    var x;
    x, k := NamedWasQueued(c, s, m, jm, r);
    assert s[m].trace[..jm][k] == s[m].trace[k];
    assert s[m].trace[..jm][i] == s[m].trace[i];
  }

  /** A stale pick puts its victim into a second party. */
  lemma StaleIsShared(c: Config, s: System, l: nat, j: nat, r: nat, i: nat, k: nat)
    requires Supported(c) && Reachable(c, s) && OneShot(s) && StalePick(s, l, j, r, i, k)
    ensures !PartiesDisjoint(s)
  {
    ReachableInv(c, s);
    var m, jm := NamedByLeader(c, s, l, i, r);
    assert (m, jm) != (l, j);
    assert r in Members(s, m, jm);
  }

  /** One request each and FIFO channels: the parties are disjoint if and only if no leader ever
      picks on a request that arrived after a party naming its owner. */
  lemma DisjointExactly(c: Config, s: System)
    requires Supported(c) && Reachable(c, s) && OneShot(s)
    ensures PartiesDisjoint(s) <==> FreshPicks(s)
  {
    ReachableInv(c, s);
    if FreshPicks(s) {
      forall l, j, m, jm, r | LeadsAt(s, l, j) && LeadsAt(s, m, jm) && (l, j) != (m, jm)
                              && r in Members(s, l, j) && r in Members(s, m, jm)
        ensures false
      {
        SharedMeansStale(c, s, l, j, m, jm, r);
      }
    } else {
      var l, j, r, i, k :| StalePick(s, l, j, r, i, k);
      StaleIsShared(c, s, l, j, r, i, k);
    }
  }

  lemma SharedMeansStale(c: Config, s: System, l: nat, j: nat, m: nat, jm: nat, r: nat)
    requires Supported(c) && Reachable(c, s) && OneShot(s)
    requires LeadsAt(s, l, j) && LeadsAt(s, m, jm) && (l, j) != (m, jm)
    requires r in Members(s, l, j) && r in Members(s, m, jm)
    ensures !FreshPicks(s)
  {
    ReachableInv(c, s);
    if l == m {
      LeadsOnce(c, s, l, j, jm);
    } else {
      LeadersAreComparable(c, s, l, j, m, jm);
      if Before(LeadTicket(s, l, j), LeadTicket(s, m, jm)) {
        var i, k := SharedIsStale(c, s, l, j, m, jm, r);
      } else {
        var i, k := SharedIsStale(c, s, m, jm, l, j, r);
      }
    }
  }

  /** Requests ahead of party starts are enough. */
  lemma RequestFirstIsFresh(c: Config, s: System)
    requires Supported(c) && Reachable(c, s) && OneShot(s) && RequestFirst(s)
    ensures FreshPicks(s) && PartiesDisjoint(s)
  {
    ReachableInv(c, s);
    forall l: nat, j: nat, r: nat, i: nat, k: nat | StalePick(s, l, j, r, i, k) ensures false {
      var k' := RequestCameFirst(c, s, l, i, r);
      OneTicketEach(c, s, l, k', k, Puts(s[l].trace[k']).value, Puts(s[l].trace[k]).value);
    }
    DisjointExactly(c, s);
  }

  // ---------- Already in a party: never ----------

  /** A party start arriving at a process it names finds that process waiting or queued; the case
      "already in a party" of the handler is dead code in such runs. */
  lemma NamedProcessIsWaiting(c: Config, s: System, from: nat, to: nat)
    requires Supported(c) && Reachable(c, s) && OneShot(s) && RequestFirst(s)
    requires Enabled(c, s, Deliver(from, to))
    requires s[from].out[to][0].PartyStart? && to in s[from].out[to][0].participants
    ensures s[to].node.state.WaitingForReplies? || s[to].node.state.Queued?
  {
    ReachableInv(c, s);
    RequestFirstIsFresh(c, s);
    var m := s[from].out[to][0];
    var j := UnderWayWasSent(c, s, from, to, 0);
    assert LeadsAt(s, from, j) && PartyOf(s, from, j) == m;
    var x, e := NamedWasQueued(c, s, from, j, to);
    assert s[from].trace[..j][e] == s[from].trace[e];
    var k := PutWasIssued(c, s, from, e, x);
    if s[to].node.pending.None? {
      var n := PendingClosed(to, s[to].trace, k);
      var o, jo := NamedByLeader(c, s, to, n, to);
      assert to in Members(s, o, jo) && to in Members(s, from, j);
      assert (o, jo) == (from, j);
      NotYetReceived(c, s, from, to, n);
    }
  }

  // ---------- A quiet network ----------

  ghost predicate Quiet(s: System) {
    forall p, q :: 0 <= p < |s| && 0 <= q < |s[p].out| ==> s[p].out[q] == []
  }

  /** The owner of the ticket has not been named in any party started so far. */
  ghost predicate Unserved(s: System, t: Ticket) {
    && (exists k: nat :: IssuedBy(s, t, k))
    && forall l, j :: LeadsAt(s, l, j) ==> t.pid !in Members(s, l, j)
  }

  /** With one request each, an unserved ticket is in the queue of everyone it has reached. */
  lemma UnservedStays(c: Config, s: System, q: nat, t: Ticket, i: nat)
    requires Supported(c) && Inv(c, s) && OneShot(s) && Unserved(s, t) && q < |s|
    requires i < |s[q].trace| && Puts(s[q].trace[i]) == Some(t)
    ensures t in s[q].node.queue
  {
    var tr := s[q].trace;
    forall j | i < j < |tr| ensures !Names(tr[j], t.pid) {
      if Names(tr[j], t.pid) {
        var l, jl := NamedByLeader(c, s, q, j, t.pid);
      }
    }
    assert tr[..|tr|] == tr;
    OneInsertion(c, s, q, |tr|, t, i);
    QueueContent(q, tr, t);
  }

  /** On a quiet network every unserved ticket is in every queue. */
  lemma UnservedIsEverywhere(c: Config, s: System, q: nat, t: Ticket)
    requires Supported(c) && Reachable(c, s) && OneShot(s) && Quiet(s) && Unserved(s, t) && q < |s|
    ensures t in s[q].node.queue
  {
    ReachableInv(c, s);
    var k: nat :| IssuedBy(s, t, k);
    var p := t.pid;
    if p == q {
      UnservedStays(c, s, q, t, k);
    } else {
      SentIsSomewhere(c, s, p, q, k, Request(t));
      var i :| 0 <= i < |s[q].trace| && s[q].trace[i] == In(Net(p, Request(t)));
      UnservedStays(c, s, q, t, i);
    }
  }

  /** On a quiet network any other queued ticket came after a party naming its owner. */
  lemma ExtraTicketsAreLate(c: Config, s: System, q: nat, t: Ticket) returns (i: nat, k: nat)
    requires Supported(c) && Reachable(c, s) && OneShot(s) && Quiet(s) && q < |s|
    requires t in s[q].node.queue && !Unserved(s, t)
    ensures i < k < |s[q].trace| && Names(s[q].trace[i], t.pid) && Puts(s[q].trace[k]) == Some(t)
  {
    ReachableInv(c, s);
    var tr := s[q].trace;
    QueueContent(q, tr, t);
    k :| HeldFrom(tr, t, k);
    var e := PutWasIssued(c, s, q, k, t);
    var l, j :| LeadsAt(s, l, j) && t.pid in Members(s, l, j);
    i := PartySeenBy(c, s, l, j, q, t.pid);
  }

  /** On a quiet network a party has been seen by everyone. */
  lemma PartySeenBy(c: Config, s: System, l: nat, j: nat, q: nat, r: nat) returns (i: nat)
    requires Supported(c) && Inv(c, s) && Quiet(s) && LeadsAt(s, l, j) && q < |s| && r in Members(s, l, j)
    ensures i < |s[q].trace| && Names(s[q].trace[i], r)
  {
    if q == l {
      i := j;
    } else {
      SentIsSomewhere(c, s, l, q, j, PartyOf(s, l, j));
      i :| 0 <= i < |s[q].trace| && s[q].trace[i] == In(Net(l, PartyOf(s, l, j)));
    }
  }

  /** With requests ahead of party starts, the queues of a quiet network are the unserved tickets. */
  lemma QuietQueues(c: Config, s: System, q: nat, t: Ticket)
    requires Supported(c) && Reachable(c, s) && OneShot(s) && RequestFirst(s) && Quiet(s) && q < |s|
    ensures t in s[q].node.queue <==> Unserved(s, t)
  {
    ReachableInv(c, s);
    if Unserved(s, t) {
      UnservedIsEverywhere(c, s, q, t);
    } else if t in s[q].node.queue {
      var i, k := ExtraTicketsAreLate(c, s, q, t);
      var k' := RequestCameFirst(c, s, q, i, t.pid);
      OneTicketEach(c, s, q, k', k, Puts(s[q].trace[k']).value, t);
    }
  }

  /** On a quiet network every unserved requester has all its replies. */
  lemma QuietRequesterIsQueued(c: Config, s: System, t: Ticket)
    requires Supported(c) && Reachable(c, s) && OneShot(s) && Quiet(s) && Unserved(s, t)
    ensures t.pid < |s| && s[t.pid].node.state.Queued? && s[t.pid].node.pending == Some(t)
  {
    ReachableInv(c, s);
    var p := t.pid;
    var k: nat :| IssuedBy(s, t, k);
    if s[p].node.pending.None? {
      var j := PendingClosed(p, s[p].trace, k);
      var l, jl := NamedByLeader(c, s, p, j, p);
    } else {
      var k' := PendingOpen(p, s[p].trace, s[p].node.pending.value);
      assert k' == k;
      NobodyWaitsWhenQuiet(c, s, p);
    }
  }

  lemma NobodyWaitsWhenQuiet(c: Config, s: System, p: nat)
    requires Supported(c) && Reachable(c, s) && Quiet(s) && p < |s| && s[p].node.pending.Some?
    ensures s[p].node.state.Queued?
  {
    ReachableInv(c, s);
    if s[p].node.state.WaitingForReplies? {
      forall q: nat | q < c.worldSize ensures s[p].node.tracker[q] {
        if q != p {
          NobodyIsStuckWaiting(c, s, p, q);
        }
      }
    }
  }

  /** Ticket `u` is in `p`'s queue, put there after `p` had seen a party naming its owner. */
  ghost predicate Lingers(s: System, p: nat, u: Ticket, i: nat, k: nat) {
    && p < |s| && u in s[p].node.queue
    && i < k < |s[p].trace| && Names(s[p].trace[i], u.pid) && Puts(s[p].trace[k]) == Some(u)
  }

  /** Progress without any order between senders: on a quiet network the owner of the oldest unserved
      ticket heads its own queue, and so is not waiting in vain, if and only if no older ticket lingers
      there. */
  lemma OldestHeadsExactly(c: Config, s: System, t: Ticket)
    requires Supported(c) && Reachable(c, s) && OneShot(s) && Quiet(s)
    requires Unserved(s, t) && forall u :: Unserved(s, u) ==> u == t || Before(t, u)
    ensures t.pid < |s| && s[t.pid].node.state.Queued? && t in s[t.pid].node.queue
    ensures s[t.pid].node.queue[0] == t <==> !exists u, i, k :: Lingers(s, t.pid, u, i, k) && Before(u, t)
    ensures s[t.pid].node.queue[0] == t ==>
              forall g: set<nat> :: t.pid in g && (forall r :: r in g ==> exists u :: Unserved(s, u) && u.pid == r)
                ==> !Parties.ValidGroup(c, g)
  {
    ReachableInv(c, s);
    QuietRequesterIsQueued(c, s, t);
    UnservedIsEverywhere(c, s, t.pid, t);
    var q := s[t.pid].node.queue;
    if q[0] == t {
      OnlyLaterBehind(q, t);
      forall g: set<nat> | t.pid in g && forall r :: r in g ==> exists u :: Unserved(s, u) && u.pid == r
        ensures !Parties.ValidGroup(c, g)
      {
        HeadMissesNobody(c, s, t, g);
      }
    } else {
      var i, k := ExtraTicketsAreLate(c, s, t.pid, q[0]);
      SmallestIsBefore(q, t);
      assert Lingers(s, t.pid, q[0], i, k);
    }
  }

  lemma OnlyLaterBehind(q: seq<Ticket>, t: Ticket)
    requires WellFormed(q) && q != [] && q[0] == t
    ensures forall u :: u in q ==> !Before(u, t)
  {
  }

  lemma SmallestIsBefore(q: seq<Ticket>, t: Ticket)
    requires WellFormed(q) && t in q && q[0] != t
    ensures Before(q[0], t)
  {
    var i :| 0 <= i < |q| && q[i] == t;
  }

  lemma HeadMissesNobody(c: Config, s: System, t: Ticket, g: set<nat>)
    requires Supported(c) && Reachable(c, s) && OneShot(s) && Quiet(s) && t.pid < |s|
    requires s[t.pid].node.state.Queued? && s[t.pid].node.queue != [] && s[t.pid].node.queue[0] == t
    requires t.pid in g && forall r :: r in g ==> exists u :: Unserved(s, u) && u.pid == r
    ensures !Parties.ValidGroup(c, g)
  {
    forall r | r in g ensures HasPid(s[t.pid].node.queue, r) {
      var u :| Unserved(s, u) && u.pid == r;
      UnservedIsEverywhere(c, s, t.pid, u);
    }
    NoMissedParty(c, s, t.pid, g);
  }

  ghost predicate Holds(s: System, q: nat, waiting: iset<Ticket>) {
    q < |s| && forall u :: u in s[q].node.queue <==> u in waiting
  }

  /** When every queue holds exactly the tickets in `waiting`, and the owner of the oldest is queued,
      all replicas are equal, that ticket heads them, and no valid party of waiting processes
      contains its owner. */
  lemma AgreedQueues(c: Config, s: System, waiting: iset<Ticket>, t: Ticket)
    requires Supported(c) && Reachable(c, s)
    requires forall q :: 0 <= q < |s| ==> Holds(s, q, waiting)
    requires t in waiting && t.pid < |s| && s[t.pid].node.state.Queued?
    requires forall u :: u in waiting ==> u == t || Before(t, u)
    ensures forall p, q :: 0 <= p < |s| && 0 <= q < |s| ==> s[p].node.queue == s[q].node.queue
    ensures forall q :: 0 <= q < |s| ==> s[q].node.queue != [] && s[q].node.queue[0] == t
    ensures forall g: set<nat> :: t.pid in g && (forall r :: r in g ==> exists u :: u in waiting && u.pid == r)
              ==> !Parties.ValidGroup(c, g)
  {
    ReachableInv(c, s);
    forall p: nat, q: nat | p < |s| && q < |s| ensures s[p].node.queue == s[q].node.queue {
      SameTickets(c, s, p, q, waiting);
    }
    forall q: nat | q < |s| ensures s[q].node.queue != [] && s[q].node.queue[0] == t {
      OldestHeads(c, s, q, waiting, t);
    }
    forall g: set<nat> | t.pid in g && forall r :: r in g ==> exists u :: u in waiting && u.pid == r
      ensures !Parties.ValidGroup(c, g)
    {
      OldestLacksGroup(c, s, waiting, t, g);
    }
  }

  lemma SameTickets(c: Config, s: System, p: nat, q: nat, waiting: iset<Ticket>)
    requires Supported(c) && Inv(c, s) && Holds(s, p, waiting) && Holds(s, q, waiting)
    ensures s[p].node.queue == s[q].node.queue
  {
    SortedIsCanonical(s[p].node.queue, s[q].node.queue);
  }

  lemma OldestHeads(c: Config, s: System, q: nat, waiting: iset<Ticket>, t: Ticket)
    requires Supported(c) && Inv(c, s) && Holds(s, q, waiting)
    requires t in waiting && forall u :: u in waiting ==> u == t || Before(t, u)
    ensures s[q].node.queue != [] && s[q].node.queue[0] == t
  {
    assert t in s[q].node.queue && s[q].node.queue[0] in s[q].node.queue;
    SmallestHeads(s[q].node.queue, t);
  }

  lemma OldestLacksGroup(c: Config, s: System, waiting: iset<Ticket>, t: Ticket, g: set<nat>)
    requires Supported(c) && Reachable(c, s) && Holds(s, t.pid, waiting)
    requires t in waiting && s[t.pid].node.state.Queued?
    requires forall u :: u in waiting ==> u == t || Before(t, u)
    requires t.pid in g && forall r :: r in g ==> exists u :: u in waiting && u.pid == r
    ensures !Parties.ValidGroup(c, g)
  {
    ReachableInv(c, s);
    OldestHeads(c, s, t.pid, waiting, t);
    forall r | r in g ensures HasPid(s[t.pid].node.queue, r) {
      var u :| u in waiting && u.pid == r;
      assert u in s[t.pid].node.queue;
    }
    NoMissedParty(c, s, t.pid, g);
  }

  lemma SmallestHeads(q: seq<Ticket>, t: Ticket)
    requires WellFormed(q) && t in q && (q[0] == t || Before(t, q[0]))
    ensures q[0] == t
  {
    var i :| 0 <= i < |q| && q[i] == t;
  }

  /** Progress. When nothing is under way, every unserved requester is queued and all replicas agree;
      the oldest unserved ticket heads every queue, and no valid party of unserved requesters
      contains its owner: whoever still waits waits for others to come. */
  lemma QuietProgress(c: Config, s: System, t: Ticket)
    requires Supported(c) && Reachable(c, s) && OneShot(s) && RequestFirst(s) && Quiet(s)
    requires Unserved(s, t) && forall u :: Unserved(s, u) ==> u == t || Before(t, u)
    ensures forall u :: Unserved(s, u) ==> u.pid < |s| && s[u.pid].node.state.Queued?
    ensures forall p, q :: 0 <= p < |s| && 0 <= q < |s| ==> s[p].node.queue == s[q].node.queue
    ensures forall q :: 0 <= q < |s| ==> s[q].node.queue != [] && s[q].node.queue[0] == t
    ensures forall g: set<nat> :: t.pid in g && (forall r :: r in g ==> exists u :: Unserved(s, u) && u.pid == r)
              ==> !Parties.ValidGroup(c, g)
  {
    forall u | Unserved(s, u) ensures u.pid < |s| && s[u.pid].node.state.Queued? {
      QuietRequesterIsQueued(c, s, u);
    }
    var waiting := iset u | Unserved(s, u);
    forall q: nat | q < |s| ensures Holds(s, q, waiting) {
      forall u ensures u in s[q].node.queue <==> u in waiting {
        QuietQueues(c, s, q, u);
      }
    }
    AgreedQueues(c, s, waiting, t);
  }
}
