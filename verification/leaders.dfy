/** Runs in which every process asks at most once: who leads, in which order, and with whom.
    Channels are FIFO; nothing is assumed about messages of different senders. */
module Leaders {
  import opened Types
  import opened Queue
  import opened NodeModel
  import opened Process
  import opened Traces
  import opened Network
  import opened Histories
  import opened Ordering
  import Parties

  ghost predicate OneShot(s: System) {
    forall p, i, j ::
      (0 <= p < |s| && 0 <= i < |s[p].trace| && 0 <= j < |s[p].trace|
       && Asks(s[p].trace[i]) && Asks(s[p].trace[j])) ==> i == j
  }

  /** Process `p` sends a party start at entry `j` of its history. */
  ghost predicate LeadsAt(s: System, p: nat, j: nat) {
    p < |s| && j < |s[p].trace| && Leads(s[p].trace[j])
  }

  function PartyOf(s: System, p: nat, j: nat): Message
    requires p < |s| && j < |s[p].trace| && Leads(s[p].trace[j])
  {
    s[p].trace[j].action.msg
  }

  function Members(s: System, p: nat, j: nat): seq<nat>
    requires p < |s| && j < |s[p].trace| && Leads(s[p].trace[j])
  {
    PartyOf(s, p, j).participants
  }

  /** The request on which the party was started. */
  function LeadTicket(s: System, p: nat, j: nat): Ticket
    requires p < |s| && j < |s[p].trace|
  {
    var pending := SummaryOf(p, s[p].trace[..j]).pending;
    if pending.Some? then pending.value else Ticket(p, 0)
  }

  ghost predicate IssuedBy(s: System, t: Ticket, k: nat) {
    t.pid < |s| && k < |s[t.pid].trace| && AsksFor(s[t.pid].trace[k], t)
  }

  // ---------- Where tickets and names come from ----------

  /** Every queued ticket was issued by its owner. */
  lemma PutWasIssued(c: Config, s: System, p: nat, i: nat, t: Ticket) returns (k: nat)
    requires c.bearWeight > 0 && Inv(c, s) && p < |s|
    requires i < |s[p].trace| && Puts(s[p].trace[i]) == Some(t)
    ensures IssuedBy(s, t, k) && (t.pid == p ==> k == i)
    ensures s[p].trace[i] == if t.pid == p then Out(Broadcast(Request(t))) else In(Net(t.pid, Request(t)))
  {
    assert EntryOk(c, p, SummaryOf(p, s[p].trace[..i]), s[p].trace[i]);
    if s[p].trace[i].Out? {
      k := i;
    } else {
      k := ReceivedWasSent(c, s, p, s[p].trace[i].event.from, i, Request(t));
    }
  }

  /** Every party seen was started by its leader. */
  lemma NamedByLeader(c: Config, s: System, p: nat, i: nat, r: nat) returns (l: nat, j: nat)
    requires c.bearWeight > 0 && Inv(c, s) && p < |s|
    requires i < |s[p].trace| && Names(s[p].trace[i], r)
    ensures LeadsAt(s, l, j) && r in Members(s, l, j)
    ensures if l == p then j == i else s[p].trace[i] == In(Net(l, PartyOf(s, l, j)))
  {
    if s[p].trace[i].Out? {
      l, j := p, i;
    } else {
      l := s[p].trace[i].event.from;
      j := ReceivedWasSent(c, s, p, l, i, s[p].trace[i].event.msg);
    }
  }

  /** What the history says at the moment a party starts. */
  lemma AtTheStart(c: Config, s: System, l: nat, j: nat) returns (k: nat)
    requires c.bearWeight > 0 && Inv(c, s) && LeadsAt(s, l, j)
    ensures var v := SummaryOf(l, s[l].trace[..j]);
            && GoodStart(c, l, v, Members(s, l, j)) && Parties.ValidParty(c, l, Members(s, l, j))
            && v.queue[0] == LeadTicket(s, l, j) && WellFormed(v.queue)
            && v.maxStamp < Stamp(PartyOf(s, l, j))
    ensures k < j && LeadTicket(s, l, j).pid == l && IssuedBy(s, LeadTicket(s, l, j), k)
    ensures OpenAt(l, s[l].trace[..j], LeadTicket(s, l, j), k)
    ensures l in Members(s, l, j)
  {
    var tr := s[l].trace;
    assert EntryOk(c, l, SummaryOf(l, tr[..j]), tr[j]);
    SummaryQueue(l, tr[..j]);
    assert Members(s, l, j)[0] == l;
    k := PendingOpen(l, tr[..j], LeadTicket(s, l, j));
    assert EntryOk(c, l, SummaryOf(l, tr[..k]), tr[k]);
  }

  /** Everyone named in a party had its ticket in the leader's queue, at or after the head. */
  lemma NamedWasQueued(c: Config, s: System, l: nat, j: nat, r: nat) returns (x: Ticket, i: nat)
    requires Supported(c) && Inv(c, s) && LeadsAt(s, l, j) && r in Members(s, l, j)
    ensures x.pid == r && HeldFrom(s[l].trace[..j], x, i)
    ensures x == LeadTicket(s, l, j) || Before(LeadTicket(s, l, j), x)
    ensures x.ts < Stamp(PartyOf(s, l, j))
  {
    var k := AtTheStart(c, s, l, j);
    var tr := s[l].trace[..j];
    var v := SummaryOf(l, tr);
    PidsQueued(c, s, l, j);
    BuiltPartyInQueue(c, v.queue);
    x :| x in v.queue && x.pid == r;
    QueueContent(l, tr, x);
    i :| HeldFrom(tr, x, i);
    StampBound(l, tr, i, Request(x));
  }

  lemma BuiltPartyInQueue(c: Config, q: seq<Ticket>)
    requires Supported(c) && WellFormed(q) && Parties.PidsBelow(q, c.worldSize) && q != []
    requires BuildParty(c, q).Some?
    ensures forall p :: p in BuildParty(c, q).value ==> HasPid(q, p)
  {
    Parties.BuiltPartyIsValid(c, q);
  }

  lemma PidsQueued(c: Config, s: System, p: nat, n: nat)
    requires c.bearWeight > 0 && Inv(c, s) && p < |s| && n <= |s[p].trace|
    ensures Parties.PidsBelow(SummaryOf(p, s[p].trace[..n]).queue, c.worldSize)
  {
    var tr := s[p].trace[..n];
    forall t | t in SummaryOf(p, tr).queue ensures t.pid < c.worldSize {
      QueueContent(p, tr, t);
      var i: nat :| HeldFrom(tr, t, i);
      assert s[p].trace[i] == tr[i];
      var k := PutWasIssued(c, s, p, i, t);
    }
  }

  /** A process is only ever named after it has asked. */
  lemma NamedAfterAsking(c: Config, s: System, p: nat, i: nat) returns (k: nat)
    requires Supported(c) && Inv(c, s) && p < |s|
    requires i < |s[p].trace| && Names(s[p].trace[i], p)
    ensures k < i && Asks(s[p].trace[k])
  {
    var l, j := NamedByLeader(c, s, p, i, p);
    var x;
    x, k := MemberHadAsked(c, s, l, j, p);
    AskedBeforeNaming(c, p, s[p].trace, i, k, PartyOf(s, l, j), x);
  }

  lemma AskedBeforeNaming(c: Config, me: nat, tr: seq<Entry>, i: nat, k: nat, m: Message, x: Ticket)
    requires TraceOk(c, me, tr) && i < |tr| && k < |tr|
    requires Carries(tr[i], m) && m.PartyStart? && AsksFor(tr[k], x) && x.ts < Stamp(m)
    ensures k < i && Asks(tr[k])
  {
    if i < k {
      SentIsLater(c, me, tr, i, k, m, Request(x));
    }
  }

  lemma MemberHadAsked(c: Config, s: System, l: nat, j: nat, r: nat) returns (x: Ticket, k: nat)
    requires Supported(c) && Inv(c, s) && LeadsAt(s, l, j) && r in Members(s, l, j)
    ensures x.pid == r && IssuedBy(s, x, k) && x.ts < Stamp(PartyOf(s, l, j))
  {
    var e;
    x, e := NamedWasQueued(c, s, l, j, r);
    assert s[l].trace[e] == s[l].trace[..j][e];
    k := PutWasIssued(c, s, l, e, x);
  }

  // ---------- One request per process ----------

  lemma OneTicketEach(c: Config, s: System, p: nat, i: nat, j: nat, t: Ticket, u: Ticket)
    requires c.bearWeight > 0 && Inv(c, s) && OneShot(s) && p < |s|
    requires i < |s[p].trace| && j < |s[p].trace|
    requires Puts(s[p].trace[i]) == Some(t) && Puts(s[p].trace[j]) == Some(u) && t.pid == u.pid
    ensures t == u && i == j
  {
    var k := PutWasIssued(c, s, p, i, t);
    var k' := PutWasIssued(c, s, p, j, u);
    assert k == k';
    if t.pid != p && i < j {
      ReceivedInOrder(c, s, p, t.pid, i, j, Request(t), Request(u));
    }
    if t.pid != p && j < i {
      ReceivedInOrder(c, s, p, t.pid, j, i, Request(u), Request(t));
    }
  }

  /** Replica content: at any point of its history the queue of a process holds exactly the
      tickets it has put in and not seen named since. */
  lemma ReplicaContent(c: Config, s: System, p: nat, n: nat, t: Ticket)
    requires Supported(c) && Reachable(c, s) && OneShot(s) && p < |s| && n <= |s[p].trace|
    ensures t in SummaryOf(p, s[p].trace[..n]).queue <==>
            exists i: nat :: i < n && Puts(s[p].trace[i]) == Some(t)
                             && forall j :: i < j < n ==> !Names(s[p].trace[j], t.pid)
    ensures s[p].node.queue == SummaryOf(p, s[p].trace).queue
  {
    ReachableInv(c, s);
    var tr := s[p].trace;
    QueueContent(p, tr[..n], t);
    if i: nat :| HeldFrom(tr[..n], t, i) {
      assert Puts(tr[i]) == Some(t);
      assert forall j :: i < j < n ==> tr[..n][j] == tr[j];
    }
    if i: nat :| i < n && Puts(tr[i]) == Some(t) && forall j :: i < j < n ==> !Names(tr[j], t.pid) {
      OneInsertion(c, s, p, n, t, i);
    }
  }

  lemma OneInsertion(c: Config, s: System, p: nat, n: nat, t: Ticket, i: nat)
    requires c.bearWeight > 0 && Inv(c, s) && OneShot(s) && p < |s| && n <= |s[p].trace|
    requires i < n && Puts(s[p].trace[i]) == Some(t)
    requires forall j :: i < j < n ==> !Names(s[p].trace[j], t.pid)
    ensures HeldFrom(s[p].trace[..n], t, i)
  {
    var tr := s[p].trace;
    forall j | i < j < n ensures !Names(tr[..n][j], t.pid) && !PutsPid(tr[..n][j], t.pid) {
      if PutsPid(tr[j], t.pid) {
        OneTicketEach(c, s, p, i, j, t, Puts(tr[j]).value);
      }
    }
  }

  /** Once named, a process never leads: it does not lead again, nor after joining another party. */
  lemma NotNamedBeforeLeading(c: Config, s: System, l: nat, i: nat, j: nat)
    requires Supported(c) && Inv(c, s) && OneShot(s) && LeadsAt(s, l, j)
    requires i < |s[l].trace| && Names(s[l].trace[i], l)
    ensures j <= i
  {
    var k := AtTheStart(c, s, l, j);
    var k0 := NamedAfterAsking(c, s, l, i);
    OpenUntil(l, s[l].trace, j, LeadTicket(s, l, j), k, i);
  }

  lemma OpenUntil(me: nat, tr: seq<Entry>, j: nat, t: Ticket, k: nat, i: nat)
    requires j <= |tr| && OpenAt(me, tr[..j], t, k) && k < i < |tr| && Names(tr[i], me)
    ensures j <= i
  {
  }

  lemma LeadsOnce(c: Config, s: System, l: nat, i: nat, j: nat)
    requires Supported(c) && Inv(c, s) && OneShot(s) && LeadsAt(s, l, i) && LeadsAt(s, l, j)
    ensures i == j
  {
    var k := AtTheStart(c, s, l, i);
    var k' := AtTheStart(c, s, l, j);
    NotNamedBeforeLeading(c, s, l, i, j);
    NotNamedBeforeLeading(c, s, l, j, i);
  }

  // ---------- Leadership is earned ----------

  /** The leader had, for its own ticket, the reply of every peer. */
  lemma LeaderHasReply(c: Config, s: System, l: nat, j: nat, q: nat) returns (i: nat, r: Ticket)
    requires Supported(c) && Inv(c, s) && OneShot(s) && LeadsAt(s, l, j) && q < |s| && q != l
    ensures i < j && s[l].trace[i] == In(Net(q, Reply(r, LeadTicket(s, l, j))))
  {
    var tr := s[l].trace;
    var k := AtTheStart(c, s, l, j);
    RepliedSince(l, tr[..j], q);
    i :| RepliedAt(tr[..j], q, i);
    assert tr[i] == tr[..j][i];
    r := tr[i].event.msg.senderTicket;
    var k' := ReplyAnswersOwnRequest(c, s, l, q, i, r, tr[i].event.msg.answered);
    assert k' == k;
  }

  /** When `l` starts a party on its ticket, every older request ever issued in the run, then or
      later, has already been handled by `l`, and its owner named since in a party `l` has seen. */
  lemma LeadershipIsEarned(c: Config, s: System, l: nat, j: nat, u: Ticket, k: nat) returns (i: nat, n: nat)
    requires Supported(c) && Reachable(c, s) && OneShot(s) && LeadsAt(s, l, j)
    requires IssuedBy(s, u, k) && Before(u, LeadTicket(s, l, j))
    ensures u.pid != l
    ensures i < n < j && s[l].trace[i] == In(Net(u.pid, Request(u))) && Names(s[l].trace[n], u.pid)
  {
    ReachableInv(c, s);
    var tr := s[l].trace;
    var k0 := AtTheStart(c, s, l, j);
    assert u.pid == l ==> k == k0;
    var e, r := LeaderHasReply(c, s, l, j, u.pid);
    MatchingReply(c, s, l, u.pid, e, r, LeadTicket(s, l, j), k, u);
    i :| 0 <= i < e && tr[i] == In(Net(u.pid, Request(u)));
    NotAheadOfHead(SummaryOf(l, tr[..j]).queue, u);
    if forall n :: i < n < j ==> !Names(tr[n], u.pid) {
      OneInsertion(c, s, l, j, u, i);
      QueueContent(l, tr[..j], u);
      assert false;
    }
    n :| i < n < j && Names(tr[n], u.pid);
  }

  lemma NotAheadOfHead(q: seq<Ticket>, u: Ticket)
    requires WellFormed(q) && q != [] && Before(u, q[0])
    ensures u !in q
  {
  }

  // ---------- Leaders are totally ordered ----------

  /** Nobody who starts a party is ever named in someone else's, by descent on tickets: had an older
      leader named a younger one, the younger would have seen the older one named before. */
  lemma {:induction false} LeadersAreNotNamed(c: Config, s: System, l: nat, j: nat, m: nat, jm: nat)
    requires Supported(c) && Reachable(c, s) && OneShot(s)
    requires LeadsAt(s, l, j) && LeadsAt(s, m, jm) && l != m
    ensures l !in Members(s, m, jm)
    decreases LeadTicket(s, l, j).ts, LeadTicket(s, l, j).pid
  {
    ReachableInv(c, s);
    if l in Members(s, m, jm) {
      var km := NamedLeaderIsYounger(c, s, l, j, m, jm);
      var i, n := LeadershipIsEarned(c, s, l, j, LeadTicket(s, m, jm), km);
      var o, jo := NamedByLeader(c, s, l, n, m);
      if o == m {
        LeadsOnce(c, s, m, jm, jo);
      }
      if o == l || o == m {
        NotNamedBeforeLeading(c, s, l, n, j);
      } else {
        LeadersAreNotNamed(c, s, m, jm, o, jo);
      }
    }
  }

  lemma NamedLeaderIsYounger(c: Config, s: System, l: nat, j: nat, m: nat, jm: nat) returns (k: nat)
    requires Supported(c) && Inv(c, s) && OneShot(s)
    requires LeadsAt(s, l, j) && LeadsAt(s, m, jm) && l != m && l in Members(s, m, jm)
    ensures IssuedBy(s, LeadTicket(s, m, jm), k) && LeadTicket(s, m, jm).pid == m
    ensures Before(LeadTicket(s, m, jm), LeadTicket(s, l, j))
  {
    var x, e := NamedWasQueued(c, s, m, jm, l);
    assert s[m].trace[..jm][e] == s[m].trace[e];
    var kx := PutWasIssued(c, s, m, e, x);
    var kl := AtTheStart(c, s, l, j);
    k := AtTheStart(c, s, m, jm);
  }

  /** Of two leaders, the one with the larger ticket had handled the other's party start before it
      sent its own. */
  lemma LeadersAreOrdered(c: Config, s: System, l: nat, j: nat, m: nat, jm: nat) returns (n: nat)
    requires Supported(c) && Reachable(c, s) && OneShot(s)
    requires LeadsAt(s, l, j) && LeadsAt(s, m, jm)
    requires Before(LeadTicket(s, l, j), LeadTicket(s, m, jm))
    ensures l != m && n < jm && s[m].trace[n] == In(Net(l, PartyOf(s, l, j)))
  {
    ReachableInv(c, s);
    var k := AtTheStart(c, s, l, j);
    var i;
    i, n := LeadershipIsEarned(c, s, m, jm, LeadTicket(s, l, j), k);
    var o, jo := NamedByLeader(c, s, m, n, l);
    if o == m {
      LeadersAreNotNamed(c, s, l, j, m, jo);
    } else if o != l {
      LeadersAreNotNamed(c, s, l, j, o, jo);
    } else {
      LeadsOnce(c, s, l, j, jo);
    }
  }

  /** Any two leaders have comparable tickets, so the order is total. */
  lemma LeadersAreComparable(c: Config, s: System, l: nat, j: nat, m: nat, jm: nat)
    requires Supported(c) && Reachable(c, s) && LeadsAt(s, l, j) && LeadsAt(s, m, jm) && l != m
    ensures Before(LeadTicket(s, l, j), LeadTicket(s, m, jm)) || Before(LeadTicket(s, m, jm), LeadTicket(s, l, j))
  {
    ReachableInv(c, s);
    var k := AtTheStart(c, s, l, j);
    var k' := AtTheStart(c, s, m, jm);
  }
}
