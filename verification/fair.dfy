/** Over bare FIFO channels, however often processes ask: who serves what, if every leader was really
    answered and no party removes a request other than those it serves. Delivery may be as unordered
    between senders as it likes. Runs with one request each and orderly runs are special cases. */
module Fairness {
  import opened Types
  import opened Process
  import opened Traces
  import opened Network
  import opened Histories
  import opened Ordering
  import opened Leaders
  import opened Repeated

  /** A party start takes out of a queue only tickets that the party serves. */
  ghost predicate ExactRemovals(s: System) {
    forall p: nat, n: nat, l: nat, j: nat, t: Ticket ::
      (SeenAt(s, p, n, l, j) && t in SummaryOf(p, s[p].trace[..n]).queue && t.pid in Members(s, l, j))
      ==> Serves(s, l, j, t)
  }

  ghost predicate Fair(c: Config, s: System)
    requires c.bearWeight > 0
  {
    Reachable(c, s) && FairStarts(s) && ExactRemovals(s)
  }

  // ---------- Leaders see each other in the order of their tickets ----------

  /** The order all leaders agree on, over FIFO channels alone. */
  lemma {:induction false} SeenInOrder(c: Config, s: System, l: nat, j: nat, m: nat, jm: nat) returns (n: nat)
    requires Supported(c) && Fair(c, s) && LeadsAt(s, l, j) && LeadsAt(s, m, jm)
    requires Before(LeadTicket(s, l, j), LeadTicket(s, m, jm))
    ensures n < jm && SeenAt(s, m, n, l, j)
    decreases LeadTicket(s, l, j).ts, LeadTicket(s, l, j).pid, 1
  {
    if l == m {
      n := j;
      OwnOrder(c, s, l, j, jm);
    } else {
      var k := LeadAsked(c, s, l, j);
      var i, e := FirstTouchOf(c, s, m, jm, LeadTicket(s, l, j), k);
      if PutsPid(s[m].trace[e], l) {
        n := PartyBeforeNewer(c, s, l, j, k, m, i, e);
      } else {
        n := e;
        var o, jo := NamedInQueue(c, s, m, LeadTicket(s, l, j), i, e);
        OnlyOwnParty(c, s, l, j, o, jo);
      }
    }
  }

  lemma OwnOrder(c: Config, s: System, l: nat, j: nat, j': nat)
    requires Supported(c) && Reachable(c, s) && LeadsAt(s, l, j) && LeadsAt(s, l, j')
    requires Before(LeadTicket(s, l, j), LeadTicket(s, l, j'))
    ensures j < j'
  {
    ReachableInv(c, s);
    if j' < j {
      LaterLead(c, s, l, j', j);
    }
  }

  lemma LeadAsked(c: Config, s: System, l: nat, j: nat) returns (k: nat)
    requires Supported(c) && Reachable(c, s) && LeadsAt(s, l, j)
    ensures LeadTicket(s, l, j).pid == l && IssuedBy(s, LeadTicket(s, l, j), k)
    ensures OpenAt(l, s[l].trace[..j], LeadTicket(s, l, j), k)
  {
    ReachableInv(c, s);
    k := AtTheStart(c, s, l, j);
  }

  lemma FirstTouchOf(c: Config, s: System, m: nat, jm: nat, u: Ticket, k: nat) returns (i: nat, e: nat)
    requires Supported(c) && Fair(c, s) && LeadsAt(s, m, jm)
    requires IssuedBy(s, u, k) && Before(u, LeadTicket(s, m, jm))
    ensures i < e < jm && Puts(s[m].trace[i]) == Some(u) && Touches(s[m].trace[e], u.pid)
    ensures forall x :: i < x < e ==> !Touches(s[m].trace[x], u.pid)
  {
    ReachableInv(c, s);
    assert FairStart(s, m, jm);
    i := OlderWasReceived(c, s, m, jm, u, k);
    e := IsTouched(c, s, m, jm, u, i);
    e := Earliest(s[m].trace, u.pid, i, e);
  }

  /** Leadership is earned: of every older request ever issued, then or later, the leader has handled
      first the request, and then a party that serves it or a newer request of the same process. */
  lemma EarnedFairly(c: Config, s: System, m: nat, jm: nat, u: Ticket, k: nat) returns (i: nat, e: nat)
    requires Supported(c) && Fair(c, s) && LeadsAt(s, m, jm)
    requires IssuedBy(s, u, k) && Before(u, LeadTicket(s, m, jm))
    ensures i < e < jm && Puts(s[m].trace[i]) == Some(u)
    ensures PutsPid(s[m].trace[e], u.pid) || exists o, jo :: SeenAt(s, m, e, o, jo) && Serves(s, o, jo, u)
  {
    i, e := FirstTouchOf(c, s, m, jm, u, k);
    if !PutsPid(s[m].trace[e], u.pid) {
      var o, jo := NamedInQueue(c, s, m, u, i, e);
    }
  }

  /** A party that names the owner of a queued ticket serves that ticket. */
  lemma NamedInQueue(c: Config, s: System, m: nat, t: Ticket, i: nat, e: nat) returns (o: nat, jo: nat)
    requires Supported(c) && Reachable(c, s) && ExactRemovals(s) && m < |s|
    requires i < e < |s[m].trace| && Puts(s[m].trace[i]) == Some(t) && Names(s[m].trace[e], t.pid)
    requires forall x :: i < x < e ==> !Touches(s[m].trace[x], t.pid)
    ensures SeenAt(s, m, e, o, jo) && Serves(s, o, jo, t)
  {
    ReachableInv(c, s);
    o, jo := NamedByLeader(c, s, m, e, t.pid);
    StillQueued(m, s[m].trace, t, i, e);
    assert SeenAt(s, m, e, o, jo);
  }

  lemma StillQueued(me: nat, tr: seq<Entry>, t: Ticket, i: nat, e: nat)
    requires i < e < |tr| && Puts(tr[i]) == Some(t) && forall x :: i < x < e ==> !Touches(tr[x], t.pid)
    ensures t in SummaryOf(me, tr[..e]).queue
  {
    assert HeldFrom(tr[..e], t, i) by {
      forall x | i < x < e ensures !Names(tr[..e][x], t.pid) && !PutsPid(tr[..e][x], t.pid) {
        assert !Touches(tr[x], t.pid);
      }
    }
    QueueContent(me, tr[..e], t);
  }

  /** A leader's newer request follows its party start over the same channel. */
  lemma PartyBeforeNewer(c: Config, s: System, l: nat, j: nat, k: nat, m: nat, i: nat, e: nat) returns (n: nat)
    requires Supported(c) && Reachable(c, s) && LeadsAt(s, l, j) && l != m && m < |s|
    requires IssuedBy(s, LeadTicket(s, l, j), k) && OpenAt(l, s[l].trace[..j], LeadTicket(s, l, j), k)
    requires i < e < |s[m].trace| && Puts(s[m].trace[i]) == Some(LeadTicket(s, l, j)) && PutsPid(s[m].trace[e], l)
    ensures n < e && SeenAt(s, m, n, l, j)
  {
    ReachableInv(c, s);
    var t, u := LeadTicket(s, l, j), Puts(s[m].trace[e]).value;
    var k' := PutWasIssued(c, s, m, e, u);
    PutsInOrder(c, s, m, i, e, t, u);
    AskedAfterLeading(c, l, s[l].trace, t, u, k, k', j);
    SentIsLater(c, l, s[l].trace, j, k', PartyOf(s, l, j), Request(u));
    LoggedIsSent(l, s[l].trace, j, m, PartyOf(s, l, j));
    FifoOrder(c, s, m, l, e, Request(u), PartyOf(s, l, j));
    n :| 0 <= n < e && s[m].trace[n] == In(Net(l, PartyOf(s, l, j)));
  }

  lemma AskedAfterLeading(c: Config, me: nat, tr: seq<Entry>, t: Ticket, u: Ticket, k: nat, k': nat, j: nat)
    requires TraceOk(c, me, tr) && j < |tr| && Leads(tr[j]) && OpenAt(me, tr[..j], t, k)
    requires k' < |tr| && AsksFor(tr[k'], u) && t.ts < u.ts
    ensures j < k'
  {
    assert tr[..j][k] == tr[k];
    if k' < k {
      SentIsLater(c, me, tr, k', k, Request(u), Request(t));
    }
  }

  /** The ticket a party is started on is served by no other party. */
  lemma {:induction false} OnlyOwnParty(c: Config, s: System, l: nat, j: nat, o: nat, jo: nat)
    requires Supported(c) && Fair(c, s) && LeadsAt(s, l, j) && Serves(s, o, jo, LeadTicket(s, l, j))
    ensures (o, jo) == (l, j)
    decreases LeadTicket(s, l, j).ts, LeadTicket(s, l, j).pid, 0
  {
    ReachableInv(c, s);
    if (o, jo) != (l, j) {
      var t := LeadTicket(s, l, j);
      var e, ke := ServedWasPut(c, s, o, jo, t);
      LeadTicketsDiffer(c, s, l, j, o, jo);
      var n := SeenInOrder(c, s, o, jo, l, j);
      ServesNames(s, l, n, o, jo, t);
      LeadTicketIsOwn(c, s, l, j);
      NotNamedSinceAsking(c, s, l, j, n, PartyOf(s, o, jo));
    }
  }

  lemma NotNamedSinceAsking(c: Config, s: System, l: nat, j: nat, n: nat, m: Message)
    requires Supported(c) && Inv(c, s) && LeadsAt(s, l, j) && n < j && Names(s[l].trace[n], l) && Carries(s[l].trace[n], m)
    ensures Stamp(m) < LeadTicket(s, l, j).ts
  {
    var k := AtTheStart(c, s, l, j);
    var tr := s[l].trace;
    assert tr[..j][n] == tr[n] && tr[..j][k] == tr[k];
    SentIsLater(c, l, tr, n, k, m, Request(LeadTicket(s, l, j)));
  }

  // ---------- One party for each ticket, exactly ----------

  /** An entry is a party start that names the owner of `x`, sent after `x` was issued. */
  ghost predicate NamesSince(e: Entry, x: Ticket) {
    match e
    case In(Net(_, PartyStart(s, _, members))) => x.pid in members && x.ts < s.ts
    case Out(Broadcast(PartyStart(s, _, members))) => x.pid in members && x.ts < s.ts
    case _ => false
  }

  /** At entry `jm` process `m` picks the owner of `x` on a request that came, at entry `e`, after a
      party naming that owner, though issued before that party started. All this is in `m`'s own
      history. */
  ghost predicate LatePick(s: System, m: nat, jm: nat, x: Ticket, n: nat, e: nat) {
    && LeadsAt(s, m, jm) && x.pid in Members(s, m, jm) && HeldFrom(s[m].trace[..jm], x, e)
    && n < e && NamesSince(s[m].trace[n], x)
  }

  ghost predicate NoLatePick(s: System) {
    forall m, jm, x, n, e :: !LatePick(s, m, jm, x, n, e)
  }

  ghost predicate OnePartyEach(s: System) {
    forall l, j, m, jm, x :: Serves(s, l, j, x) && Serves(s, m, jm, x) ==> (l, j) == (m, jm)
  }

  /** Every ticket is served by one party if and only if no leader ever picks on a late request. */
  lemma ServedOnceExactly(c: Config, s: System)
    requires Supported(c) && Fair(c, s)
    ensures OnePartyEach(s) <==> NoLatePick(s)
  {
    if NoLatePick(s) {
      forall l, j, m, jm, x | Serves(s, l, j, x) && Serves(s, m, jm, x) ensures (l, j) == (m, jm) {
        TwiceIsLate(c, s, l, j, m, jm, x);
      }
    } else {
      var m, jm, x, n, e :| LatePick(s, m, jm, x, n, e);
      LateIsTwice(c, s, m, jm, x, n, e);
    }
  }

  lemma TwiceIsLate(c: Config, s: System, l: nat, j: nat, m: nat, jm: nat, x: Ticket)
    requires Supported(c) && Fair(c, s) && Serves(s, l, j, x) && Serves(s, m, jm, x)
    ensures (l, j) == (m, jm) || !NoLatePick(s)
  {
    ReachableInv(c, s);
    if (l, j) != (m, jm) {
      LeadTicketsDiffer(c, s, l, j, m, jm);
      if Before(LeadTicket(s, l, j), LeadTicket(s, m, jm)) {
        var n, e := YoungerIsLate(c, s, l, j, m, jm, x);
      } else {
        var n, e := YoungerIsLate(c, s, m, jm, l, j, x);
      }
    }
  }

  lemma YoungerIsLate(c: Config, s: System, l: nat, j: nat, m: nat, jm: nat, x: Ticket) returns (n: nat, e: nat)
    requires Supported(c) && Fair(c, s) && Serves(s, l, j, x) && Serves(s, m, jm, x)
    requires Before(LeadTicket(s, l, j), LeadTicket(s, m, jm))
    ensures LatePick(s, m, jm, x, n, e)
  {
    ReachableInv(c, s);
    n := SeenInOrder(c, s, l, j, m, jm);
    var e', k' := ServedWasPut(c, s, l, j, x);
    var k;
    e, k := ServedWasPut(c, s, m, jm, x);
    ServesNames(s, m, n, l, j, x);
    HeldSinceNamed(s[m].trace, jm, x, e, n);
  }

  /** A late pick: either the party seen had served that very ticket, or one of the owner's two tickets
      had found a party of its own before the owner asked for the other. */
  lemma LateIsTwice(c: Config, s: System, m: nat, jm: nat, x: Ticket, n: nat, e: nat)
    requires Supported(c) && Reachable(c, s) && ExactRemovals(s) && LatePick(s, m, jm, x, n, e)
    ensures !OnePartyEach(s)
  {
    var l, j, y, kx, ky := LatePickSeen(c, s, m, jm, x, n, e);
    if ky < kx {
      var o, jo := ServedMeanwhile(c, s, y, ky, x, kx);
      SharedIsTwice(s, o, jo, l, j, y);
    } else if kx < ky {
      var o, jo := ServedMeanwhile(c, s, x, kx, y, ky);
      SharedIsTwice(s, o, jo, m, jm, x);
    } else {
      SharedIsTwice(s, l, j, m, jm, x);
    }
  }

  lemma SharedIsTwice(s: System, l: nat, j: nat, m: nat, jm: nat, x: Ticket)
    requires Serves(s, l, j, x) && Serves(s, m, jm, x) && PartyOf(s, l, j) != PartyOf(s, m, jm)
    ensures !OnePartyEach(s)
  {
  }

  /** The two parties of a late pick, the tickets they serve, and where these were issued. */
  lemma LatePickSeen(c: Config, s: System, m: nat, jm: nat, x: Ticket, n: nat, e: nat)
      returns (l: nat, j: nat, y: Ticket, kx: nat, ky: nat)
    requires Supported(c) && Reachable(c, s) && LatePick(s, m, jm, x, n, e)
    ensures Serves(s, m, jm, x) && IssuedBy(s, x, kx)
    ensures Serves(s, l, j, y) && IssuedBy(s, y, ky) && y.pid == x.pid
    ensures x.ts < Stamp(PartyOf(s, l, j)) < Stamp(PartyOf(s, m, jm)) && y.ts < Stamp(PartyOf(s, l, j))
  {
    ReachableInv(c, s);
    QueueContent(m, s[m].trace[..jm], x);
    assert Serves(s, m, jm, x);
    var e';
    e', kx := ServedWasPut(c, s, m, jm, x);
    l, j, y := NamingServes(c, s, m, n, x.pid);
    e', ky := ServedWasPut(c, s, l, j, y);
    SentIsLater(c, m, s[m].trace, n, jm, PartyOf(s, l, j), PartyOf(s, m, jm));
  }

  /** Between two requests of a process some party serves the first, and starts before the second. */
  lemma ServedMeanwhile(c: Config, s: System, u: Ticket, k: nat, u': Ticket, k': nat) returns (o: nat, jo: nat)
    requires Supported(c) && Reachable(c, s) && ExactRemovals(s)
    requires IssuedBy(s, u, k) && IssuedBy(s, u', k') && u.pid == u'.pid && k < k'
    ensures Serves(s, o, jo, u) && Stamp(PartyOf(s, o, jo)) < u'.ts
  {
    ReachableInv(c, s);
    var q, tr := u.pid, s[u.pid].trace;
    var k1 := NextAsk(s, q, k, k');
    var b := NamedBetween(c, s, q, k, k1);
    b := Earliest(tr, q, k, b);
    OwnPutsAreAsks(c, q, tr, b);
    o, jo := NamedInQueue(c, s, q, u, k, b);
    SentIsLater(c, q, tr, b, k', PartyOf(s, o, jo), Request(u'));
  }

  lemma OwnPutsAreAsks(c: Config, me: nat, tr: seq<Entry>, i: nat)
    requires TraceOk(c, me, tr) && i < |tr| && !Asks(tr[i])
    ensures !PutsPid(tr[i], me)
  {
    assert EntryOk(c, me, SummaryOf(me, tr[..i]), tr[i]);
  }

  lemma HeldSinceNamed(tr: seq<Entry>, jm: nat, x: Ticket, e: nat, n: nat)
    requires n < jm <= |tr| && HeldFrom(tr[..jm], x, e) && Names(tr[n], x.pid)
    ensures n < e < jm && tr[e] == tr[..jm][e]
  {
    assert tr[n] == tr[..jm][n];
  }

  // ---------- Two ways to be fair ----------

  /** One request each: there is nothing else a reply could answer, or a party remove. */
  lemma OneShotIsFair(c: Config, s: System)
    requires Supported(c) && Reachable(c, s) && OneShot(s)
    ensures Fair(c, s)
  {
    ReachableInv(c, s);
    OneShotIsNeverStale(c, s);
    UnstaleStarts(c, s);
    forall p: nat, n: nat, l: nat, j: nat, t: Ticket |
      SeenAt(s, p, n, l, j) && t in SummaryOf(p, s[p].trace[..n]).queue && t.pid in Members(s, l, j)
      ensures Serves(s, l, j, t)
    {
      OneShotRemoval(c, s, p, n, l, j, t);
    }
  }

  lemma OneShotRemoval(c: Config, s: System, p: nat, n: nat, l: nat, j: nat, t: Ticket)
    requires Supported(c) && Inv(c, s) && OneShot(s) && SeenAt(s, p, n, l, j)
    requires t in SummaryOf(p, s[p].trace[..n]).queue && t.pid in Members(s, l, j)
    ensures Serves(s, l, j, t)
  {
    var x := MemberIsServed(c, s, l, j, t.pid);
    var e, k := ServedWasPut(c, s, l, j, x);
    var k' := QueuedWasIssued(c, s, p, n, t);
    assert k == k';
  }

  lemma QueuedWasIssued(c: Config, s: System, p: nat, n: nat, t: Ticket) returns (k: nat)
    requires Supported(c) && Inv(c, s) && p < |s| && n <= |s[p].trace| && t in SummaryOf(p, s[p].trace[..n]).queue
    ensures IssuedBy(s, t, k)
  {
    QueueContent(p, s[p].trace[..n], t);
    var i: nat :| HeldFrom(s[p].trace[..n], t, i);
    assert s[p].trace[..n][i] == s[p].trace[i];
    k := PutWasIssued(c, s, p, i, t);
  }

  /** Causal delivery with fair starts. */
  lemma OrderlyIsFair(c: Config, s: System)
    requires Supported(c) && Orderly(c, s)
    ensures Fair(c, s) && OnePartyEach(s) && NoLatePick(s)
  {
    forall p: nat, n: nat, l: nat, j: nat, t: Ticket |
      SeenAt(s, p, n, l, j) && t in SummaryOf(p, s[p].trace[..n]).queue && t.pid in Members(s, l, j)
      ensures Serves(s, l, j, t)
    {
      RemovalIsExact(c, s, p, n, l, j, t);
    }
    forall l, j, m, jm, x | Serves(s, l, j, x) && Serves(s, m, jm, x) ensures (l, j) == (m, jm) {
      ServedOnce(c, s, x, l, j, m, jm);
    }
    ServedOnceExactly(c, s);
  }
}
