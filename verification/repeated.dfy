/** Processes that ask again and again. Two assumptions replace "one request each": delivery is
    causal, and the replies counted for a party answer the request it is started on. The results
    speak of tickets: each is served at most once, in an order all leaders agree on. */
module Repeated {
  import opened Types
  import opened Queue
  import opened Process
  import opened Traces
  import opened Network
  import opened Histories
  import opened Ordering
  import opened Leaders
  import opened Disjointness
  import Parties

  // ---------- The assumptions ----------

  /** At entry `n` process `p` takes in `m'` from `b`, who knew the message `m` that `a` sent to `p`. */
  ghost predicate ComesAfter(s: System, p: nat, n: nat, b: nat, m': Message, a: nat, m: Message) {
    && p < |s| && n < |s[p].trace| && s[p].trace[n] == In(Net(b, m'))
    && a < |s| && m in Sends(a, s[a].trace, p) && KnownBefore(s, b, m, m')
  }

  ghost predicate ReceivedBefore(s: System, p: nat, n: nat, a: nat, m: Message) {
    p < |s| && n <= |s[p].trace| && exists i :: 0 <= i < n && s[p].trace[i] == In(Net(a, m))
  }

  /** A message is received only after every message to the same receiver that its sender knew. */
  ghost predicate CausalDelivery(s: System) {
    forall p, n, b, m', a, m :: ComesAfter(s, p, n, b, m', a, m) ==> ReceivedBefore(s, p, n, a, m)
  }

  /** A reply that arrives while a request is pending answers that request. */
  ghost predicate NoStaleReply(s: System) {
    forall p, i, q, r, t ::
      (0 <= p < |s| && 0 <= i < |s[p].trace| && s[p].trace[i] == In(Net(q, Reply(r, t)))
       && SummaryOf(p, s[p].trace[..i]).pending.Some?)
      ==> t == SummaryOf(p, s[p].trace[..i]).pending.value
  }

  /** Every reply counted for the party did answer the request that it was started on. */
  ghost predicate FairStart(s: System, l: nat, j: nat) {
    && LeadsAt(s, l, j)
    && forall q: nat, i: nat :: RepliedAt(s[l].trace[..j], q, i) ==>
         s[l].trace[..j][i].event.msg.answered == LeadTicket(s, l, j)
  }

  ghost predicate FairStarts(s: System) {
    forall l, j :: LeadsAt(s, l, j) ==> FairStart(s, l, j)
  }

  ghost predicate Orderly(c: Config, s: System)
    requires c.bearWeight > 0
  {
    Reachable(c, s) && CausalDelivery(s) && FairStarts(s)
  }

  // ---------- Parties and the tickets they serve ----------

  /** The party `l` starts at entry `j` serves ticket `x`: it takes `x` out of its leader's queue. */
  ghost predicate Serves(s: System, l: nat, j: nat, x: Ticket) {
    LeadsAt(s, l, j) && x in SummaryOf(l, s[l].trace[..j]).queue && x.pid in Members(s, l, j)
  }

  /** Process `p` sees that party, as its leader or by message, at its own entry `n`. */
  ghost predicate SeenAt(s: System, p: nat, n: nat, l: nat, j: nat) {
    && p < |s| && n < |s[p].trace| && LeadsAt(s, l, j)
    && if p == l then n == j else s[p].trace[n] == In(Net(l, PartyOf(s, l, j)))
  }

  lemma SeenOnce(c: Config, s: System, p: nat, n: nat, n': nat, l: nat, j: nat)
    requires c.bearWeight > 0 && Inv(c, s) && SeenAt(s, p, n, l, j) && SeenAt(s, p, n', l, j)
    ensures n == n'
  {
    if p != l && n < n' {
      ReceivedInOrder(c, s, p, l, n, n', PartyOf(s, l, j), PartyOf(s, l, j));
    }
    if p != l && n' < n {
      ReceivedInOrder(c, s, p, l, n', n, PartyOf(s, l, j), PartyOf(s, l, j));
    }
  }

  /** Every naming of `r` is a party that serves a ticket of `r`. */
  lemma NamingServes(c: Config, s: System, p: nat, n: nat, r: nat) returns (l: nat, j: nat, x: Ticket)
    requires Supported(c) && Inv(c, s) && p < |s| && n < |s[p].trace| && Names(s[p].trace[n], r)
    ensures SeenAt(s, p, n, l, j) && Serves(s, l, j, x) && x.pid == r
  {
    l, j := NamedByLeader(c, s, p, n, r);
    x := MemberIsServed(c, s, l, j, r);
  }

  lemma MemberIsServed(c: Config, s: System, l: nat, j: nat, r: nat) returns (x: Ticket)
    requires Supported(c) && Inv(c, s) && LeadsAt(s, l, j) && r in Members(s, l, j)
    ensures Serves(s, l, j, x) && x.pid == r
  {
    var e;
    x, e := NamedWasQueued(c, s, l, j, r);
    QueueContent(l, s[l].trace[..j], x);
  }

  lemma ServesNames(s: System, p: nat, n: nat, l: nat, j: nat, x: Ticket)
    requires SeenAt(s, p, n, l, j) && Serves(s, l, j, x)
    ensures Names(s[p].trace[n], x.pid)
  {
  }

  lemma ServedWasPut(c: Config, s: System, l: nat, j: nat, x: Ticket) returns (e: nat, k: nat)
    requires c.bearWeight > 0 && Inv(c, s) && Serves(s, l, j, x)
    ensures e < j && HeldFrom(s[l].trace[..j], x, e) && Puts(s[l].trace[e]) == Some(x) && IssuedBy(s, x, k)
    ensures x.ts < Stamp(PartyOf(s, l, j))
    ensures x == LeadTicket(s, l, j) || Before(LeadTicket(s, l, j), x)
  {
    var k0 := AtTheStart(c, s, l, j);
    QueueContent(l, s[l].trace[..j], x);
    e :| HeldFrom(s[l].trace[..j], x, e);
    assert s[l].trace[..j][e] == s[l].trace[e];
    k := PutWasIssued(c, s, l, e, x);
    StampBound(l, s[l].trace[..j], e, Request(x));
  }

  lemma LeadTicketIsOwn(c: Config, s: System, l: nat, j: nat)
    requires c.bearWeight > 0 && Inv(c, s) && LeadsAt(s, l, j)
    ensures LeadTicket(s, l, j).pid == l
  {
    var k := AtTheStart(c, s, l, j);
  }

  lemma LaterLead(c: Config, s: System, l: nat, j: nat, j': nat)
    requires c.bearWeight > 0 && Inv(c, s) && LeadsAt(s, l, j) && LeadsAt(s, l, j') && j < j'
    ensures LeadTicket(s, l, j).ts < LeadTicket(s, l, j').ts
  {
    var k := AtTheStart(c, s, l, j);
    var k' := AtTheStart(c, s, l, j');
    LaterAsk(c, l, s[l].trace, j, j', LeadTicket(s, l, j), LeadTicket(s, l, j'), k, k');
  }

  lemma LaterAsk(c: Config, me: nat, tr: seq<Entry>, j: nat, j': nat, t: Ticket, t': Ticket, k: nat, k': nat)
    requires TraceOk(c, me, tr) && k < j < j' <= |tr| && AsksFor(tr[k], t) && Names(tr[j], me)
    requires OpenAt(me, tr[..j'], t', k')
    ensures t.ts < t'.ts
  {
    assert tr[..j'][j] == tr[j] && tr[..j'][k'] == tr[k'];
    SentIsLater(c, me, tr, k, k', Request(t), Request(t'));
  }

  /** Different parties are started on different tickets. */
  lemma LeadTicketsDiffer(c: Config, s: System, l: nat, j: nat, m: nat, jm: nat)
    requires Supported(c) && Inv(c, s) && LeadsAt(s, l, j) && LeadsAt(s, m, jm) && (l, j) != (m, jm)
    ensures Before(LeadTicket(s, l, j), LeadTicket(s, m, jm)) || Before(LeadTicket(s, m, jm), LeadTicket(s, l, j))
  {
    LeadTicketIsOwn(c, s, l, j);
    LeadTicketIsOwn(c, s, m, jm);
    if l == m && j < jm {
      LaterLead(c, s, l, j, jm);
    } else if l == m {
      LaterLead(c, s, l, jm, j);
    }
  }

  // ---------- What causal delivery gives ----------

  /** A served request reaches everyone before the party that serves it. */
  lemma RequestBeforeParty(c: Config, s: System, p: nat, n: nat, l: nat, j: nat, x: Ticket) returns (i: nat)
    requires Supported(c) && Inv(c, s) && CausalDelivery(s) && SeenAt(s, p, n, l, j) && Serves(s, l, j, x)
    ensures i < n && Puts(s[p].trace[i]) == Some(x)
  {
    var e, k := ServedWasPut(c, s, l, j, x);
    if p == l {
      i := e;
    } else if x.pid == p {
      OwnRequestBeforeParty(c, s, p, n, l, j, x, k);
      i := k;
    } else {
      i := ForwardedFirst(c, s, p, n, l, j, x, e, k);
    }
  }

  lemma OwnRequestBeforeParty(c: Config, s: System, p: nat, n: nat, l: nat, j: nat, x: Ticket, k: nat)
    requires c.bearWeight > 0 && Inv(c, s) && SeenAt(s, p, n, l, j) && p != l
    requires x.pid == p && IssuedBy(s, x, k) && x.ts < Stamp(PartyOf(s, l, j))
    ensures k < n && Puts(s[p].trace[k]) == Some(x)
  {
    if n < k {
      SentIsLater(c, p, s[p].trace, n, k, PartyOf(s, l, j), Request(x));
    }
  }

  lemma ForwardedFirst(c: Config, s: System, p: nat, n: nat, l: nat, j: nat, x: Ticket, e: nat, k: nat) returns (i: nat)
    requires CausalDelivery(s) && SeenAt(s, p, n, l, j) && p != l && x.pid != p && IssuedBy(s, x, k)
    requires e < j && Puts(s[l].trace[e]) == Some(x)
    ensures i < n && Puts(s[p].trace[i]) == Some(x)
  {
    LoggedIsSent(x.pid, s[x.pid].trace, k, p, Request(x));
    assert Carries(s[l].trace[e], Request(x)) && Carries(s[l].trace[j], PartyOf(s, l, j));
    assert KnownBefore(s, l, Request(x), PartyOf(s, l, j));
    assert ComesAfter(s, p, n, l, PartyOf(s, l, j), x.pid, Request(x));
    i :| 0 <= i < n && s[p].trace[i] == In(Net(x.pid, Request(x)));
  }

  /** A party its sender had seen reaches everyone before a request sent afterwards. */
  lemma PartyBeforeRequest(c: Config, s: System, p: nat, n: nat, q: nat, u: Ticket, k: nat, b: nat, l: nat, j: nat)
      returns (n': nat)
    requires Supported(c) && Inv(c, s) && CausalDelivery(s) && p < |s| && q < |s| && p != q
    requires n < |s[p].trace| && s[p].trace[n] == In(Net(q, Request(u)))
    requires k < |s[q].trace| && AsksFor(s[q].trace[k], u) && b < k && SeenAt(s, q, b, l, j)
    ensures n' < n && SeenAt(s, p, n', l, j)
  {
    var m := PartyOf(s, l, j);
    assert Carries(s[q].trace[b], m);
    if l == p {
      SentIsLater(c, q, s[q].trace, b, k, m, Request(u));
      if n < j {
        SentIsLater(c, p, s[p].trace, n, j, Request(u), m);
      }
      assert n != j;
      n' := j;
    } else {
      LoggedIsSent(l, s[l].trace, j, p, m);
      assert KnownBefore(s, q, m, Request(u));
      assert ComesAfter(s, p, n, q, Request(u), l, m);
      n' :| 0 <= n' < n && s[p].trace[n'] == In(Net(l, m));
    }
  }

  lemma SamePutOnce(c: Config, s: System, p: nat, i: nat, i': nat, x: Ticket)
    requires c.bearWeight > 0 && Inv(c, s) && p < |s| && i < |s[p].trace| && i' < |s[p].trace|
    requires Puts(s[p].trace[i]) == Some(x) && Puts(s[p].trace[i']) == Some(x)
    ensures i == i'
  {
    var k := PutWasIssued(c, s, p, i, x);
    var k' := PutWasIssued(c, s, p, i', x);
    if i < i' {
      if x.pid == p {
        SentIsLater(c, p, s[p].trace, i, i', Request(x), Request(x));
      } else {
        ReceivedInOrder(c, s, p, x.pid, i, i', Request(x), Request(x));
      }
    } else if i' < i {
      if x.pid == p {
        SentIsLater(c, p, s[p].trace, i', i, Request(x), Request(x));
      } else {
        ReceivedInOrder(c, s, p, x.pid, i', i, Request(x), Request(x));
      }
    }
  }

  /** Tickets of one process reach everyone in the order they were issued. */
  lemma PutsInOrder(c: Config, s: System, p: nat, i: nat, i': nat, u: Ticket, x: Ticket)
    requires c.bearWeight > 0 && Inv(c, s) && p < |s| && i < |s[p].trace| && i' < |s[p].trace|
    requires Puts(s[p].trace[i]) == Some(u) && Puts(s[p].trace[i']) == Some(x) && u.pid == x.pid
    ensures i < i' ==> u.ts < x.ts
    ensures u.ts < x.ts ==> i < i'
    ensures u.ts == x.ts ==> i == i'
  {
    var k := PutWasIssued(c, s, p, i, u);
    var k' := PutWasIssued(c, s, p, i', x);
    if u.pid == p {
      if i < i' { SentIsLater(c, p, s[p].trace, i, i', Request(u), Request(x)); }
      if i' < i { SentIsLater(c, p, s[p].trace, i', i, Request(x), Request(u)); }
    } else {
      if i < i' { ReceivedInOrder(c, s, p, u.pid, i, i', Request(u), Request(x)); }
      if i' < i { ReceivedInOrder(c, s, p, u.pid, i', i, Request(x), Request(u)); }
    }
  }

  // ---------- The induction on tickets ----------

  /** Between two requests of one process, some party names it. */
  lemma NamedBetween(c: Config, s: System, q: nat, k: nat, k': nat) returns (b: nat)
    requires c.bearWeight > 0 && Inv(c, s) && q < |s| && k < k' < |s[q].trace|
    requires Asks(s[q].trace[k]) && Asks(s[q].trace[k'])
    ensures k < b < k' && Names(s[q].trace[b], q)
  {
    assert EntryOk(c, q, SummaryOf(q, s[q].trace[..k']), s[q].trace[k']);
    assert s[q].trace[..k'][k] == s[q].trace[k];
    b := PendingClosed(q, s[q].trace[..k'], k);
    assert s[q].trace[..k'][b] == s[q].trace[b];
  }

  /** Whoever asks again has seen its previous request served, and seen it in between. */
  lemma {:induction false} ServedInBetween(c: Config, s: System, u: Ticket, k: nat, k': nat) returns (l: nat, j: nat, b: nat)
    requires Supported(c) && Orderly(c, s)
    requires IssuedBy(s, u, k) && k < k' < |s[u.pid].trace| && Asks(s[u.pid].trace[k'])
    ensures Serves(s, l, j, u) && k < b < k' && SeenAt(s, u.pid, b, l, j)
    decreases u.ts, u.pid, 0
  {
    ReachableInv(c, s);
    var q := u.pid;
    var k1 := NextAsk(s, q, k, k');
    b := NamedBetween(c, s, q, k, k1);
    var x;
    l, j, x := NamingServes(c, s, q, b, q);
    var i := RequestBeforeParty(c, s, q, b, l, j, x);
    PutsInOrder(c, s, q, k, i, u, x);
    PutWasOwn(c, s, q, i, x);
    assert i <= k;
    if i < k {
      var b' := SeenBeforeAsking(c, s, x, i, k, l, j);
      SeenOnce(c, s, q, b, b', l, j);
    }
    assert i == k;
  }

  lemma PutWasOwn(c: Config, s: System, q: nat, i: nat, x: Ticket)
    requires c.bearWeight > 0 && Inv(c, s) && q < |s| && i < |s[q].trace| && Puts(s[q].trace[i]) == Some(x) && x.pid == q
    ensures AsksFor(s[q].trace[i], x) && IssuedBy(s, x, i)
  {
    var k := PutWasIssued(c, s, q, i, x);
  }

  lemma {:induction false} NextAsk(s: System, q: nat, k: nat, k': nat) returns (n: nat)
    requires q < |s| && k < k' < |s[q].trace| && Asks(s[q].trace[k'])
    ensures k < n <= k' && Asks(s[q].trace[n]) && forall i :: k < i < n ==> !Asks(s[q].trace[i])
    decreases k' - k
  {
    if Asks(s[q].trace[k + 1]) {
      n := k + 1;
    } else {
      n := NextAsk(s, q, k + 1, k');
    }
  }

  /** A process that asks again has seen every party that serves the earlier ticket. */
  lemma {:induction false} SeenBeforeAsking(c: Config, s: System, x: Ticket, k: nat, k': nat, l: nat, j: nat) returns (b: nat)
    requires Supported(c) && Orderly(c, s)
    requires IssuedBy(s, x, k) && k < k' < |s[x.pid].trace| && Asks(s[x.pid].trace[k'])
    requires Serves(s, l, j, x)
    ensures b < k' && SeenAt(s, x.pid, b, l, j)
    decreases x.ts, x.pid, 2
  {
    var o, jo;
    o, jo, b := ServedInBetween(c, s, x, k, k');
    if (o, jo) != (l, j) {
      ServedOnce(c, s, x, l, j, o, jo);
    }
  }

  /** No ticket is served by two parties. */
  lemma {:induction false} ServedOnce(c: Config, s: System, x: Ticket, l: nat, j: nat, m: nat, jm: nat)
    requires Supported(c) && Orderly(c, s) && Serves(s, l, j, x) && Serves(s, m, jm, x)
    ensures (l, j) == (m, jm)
    decreases x.ts, x.pid, 1
  {
    ReachableInv(c, s);
    if (l, j) != (m, jm) {
      LeadTicketsDiffer(c, s, l, j, m, jm);
      if Before(LeadTicket(s, l, j), LeadTicket(s, m, jm)) {
        ServedTwice(c, s, x, l, j, m, jm);
      } else {
        ServedTwice(c, s, x, m, jm, l, j);
      }
    }
  }

  lemma {:induction false} ServedTwice(c: Config, s: System, x: Ticket, l: nat, j: nat, m: nat, jm: nat)
    requires Supported(c) && Orderly(c, s) && Serves(s, l, j, x) && LeadsAt(s, m, jm)
    requires Before(LeadTicket(s, l, j), LeadTicket(s, m, jm))
    ensures !Serves(s, m, jm, x)
    decreases x.ts, x.pid, 0
  {
    ReachableInv(c, s);
    if Serves(s, m, jm, x) {
      var e, ke := ServedWasPut(c, s, m, jm, x);
      var n := PartiesInOrder(c, s, l, j, m, jm);
      assert s[m].trace[..jm][n] == s[m].trace[n];
      var i := RequestBeforeParty(c, s, m, n, l, j, x);
      SamePutOnce(c, s, m, i, e, x);
    }
  }

  /** The order all leaders agree on: the leader with the later ticket had seen the earlier party. */
  lemma {:induction false} PartiesInOrder(c: Config, s: System, l: nat, j: nat, m: nat, jm: nat) returns (n: nat)
    requires Supported(c) && Orderly(c, s) && LeadsAt(s, l, j) && LeadsAt(s, m, jm)
    requires Before(LeadTicket(s, l, j), LeadTicket(s, m, jm))
    ensures n < jm && SeenAt(s, m, n, l, j)
    decreases LeadTicket(s, l, j).ts, LeadTicket(s, l, j).pid, 5
  {
    ReachableInv(c, s);
    var k := AtTheStart(c, s, l, j);
    var t := LeadTicket(s, l, j);
    var i, o, jo;
    i, n, o, jo := OlderIsServed(c, s, m, jm, t, k);
    if (o, jo) != (l, j) {
      ServedOnce(c, s, t, l, j, o, jo);
    }
  }

  /** Leadership is earned: of every older request ever issued, then or later, the leader has
      handled first the request and then a party that serves it. */
  lemma {:induction false} OlderIsServed(c: Config, s: System, m: nat, jm: nat, u: Ticket, k: nat)
      returns (i: nat, n: nat, l: nat, j: nat)
    requires Supported(c) && Orderly(c, s) && LeadsAt(s, m, jm)
    requires IssuedBy(s, u, k) && Before(u, LeadTicket(s, m, jm))
    ensures i < n < jm && Puts(s[m].trace[i]) == Some(u)
    ensures SeenAt(s, m, n, l, j) && Serves(s, l, j, u)
    decreases u.ts, u.pid, 4
  {
    ReachableInv(c, s);
    assert FairStart(s, m, jm);
    i := OlderWasReceived(c, s, m, jm, u, k);
    n := IsTouched(c, s, m, jm, u, i);
    n, l, j := TouchedMeansServed(c, s, m, u, k, i, n);
  }

  /** Whatever first removes a ticket from a queue, or first replaces it there, is a party that
      serves it. */
  lemma {:induction false} TouchedMeansServed(c: Config, s: System, m: nat, u: Ticket, k: nat, i: nat, e: nat)
      returns (n: nat, l: nat, j: nat)
    requires Supported(c) && Orderly(c, s) && m < |s| && IssuedBy(s, u, k)
    requires i < e < |s[m].trace| && Puts(s[m].trace[i]) == Some(u) && Touches(s[m].trace[e], u.pid)
    ensures i < n <= e && SeenAt(s, m, n, l, j) && Serves(s, l, j, u)
    decreases u.ts, u.pid, 3
  {
    ReachableInv(c, s);
    n := Earliest(s[m].trace, u.pid, i, e);
    NotReplacedFirst(c, s, m, u, k, i, n);
    var x;
    l, j, x := NamingServes(c, s, m, n, u.pid);
    var i' := RequestBeforeParty(c, s, m, n, l, j, x);
    PutsInOrder(c, s, m, i, i', u, x);
    if i' < i {
      SeenBeforeNewer(c, s, m, u, k, i, x, i', l, j, n);
    }
    assert i == i';
  }

  /** A leader has handled every older request, its own or a peer's. */
  lemma OlderWasReceived(c: Config, s: System, m: nat, jm: nat, u: Ticket, k: nat) returns (i: nat)
    requires Supported(c) && Reachable(c, s) && FairStart(s, m, jm)
    requires IssuedBy(s, u, k) && Before(u, LeadTicket(s, m, jm))
    ensures i < jm && Puts(s[m].trace[i]) == Some(u)
  {
    ReachableInv(c, s);
    var tr := s[m].trace;
    var km := AtTheStart(c, s, m, jm);
    var t := LeadTicket(s, m, jm);
    if u.pid == m {
      if km < k {
        SentIsLater(c, m, tr, km, k, Request(t), Request(u));
      }
      i := k;
    } else {
      var q := u.pid;
      RepliedSince(m, tr[..jm], q);
      var e: nat :| RepliedAt(tr[..jm], q, e);
      assert tr[e] == tr[..jm][e];
      var r := tr[e].event.msg.senderTicket;
      MatchingReply(c, s, m, q, e, r, t, k, u);
      i :| 0 <= i < e && tr[i] == In(Net(q, Request(u)));
    }
  }

  /** Without stale replies every start is fair. */
  lemma UnstaleStarts(c: Config, s: System)
    requires Supported(c) && Inv(c, s) && NoStaleReply(s)
    ensures FairStarts(s)
  {
    forall l, j | LeadsAt(s, l, j) ensures FairStart(s, l, j) {
      UnstaleStart(c, s, l, j);
    }
  }

  lemma UnstaleStart(c: Config, s: System, l: nat, j: nat)
    requires Supported(c) && Inv(c, s) && NoStaleReply(s) && LeadsAt(s, l, j)
    ensures FairStart(s, l, j)
  {
    var k := AtTheStart(c, s, l, j);
    var tr := s[l].trace[..j];
    forall q: nat, i: nat | RepliedAt(tr, q, i) ensures tr[i].event.msg.answered == LeadTicket(s, l, j) {
      assert s[l].trace[i] == tr[i];
      var m := tr[i].event.msg;
      StillPending(c, s, l, j, LeadTicket(s, l, j), k, q, i, m.answered, m.senderTicket);
    }
  }

  /** The reply counted for a party answers the ticket the party was started on. */
  lemma StillPending(c: Config, s: System, m: nat, jm: nat, t: Ticket, km: nat, q: nat, e: nat, t': Ticket, r: Ticket)
    requires c.bearWeight > 0 && Inv(c, s) && NoStaleReply(s) && m < |s| && jm <= |s[m].trace|
    requires OpenAt(m, s[m].trace[..jm], t, km)
    requires e < jm && s[m].trace[e] == In(Net(q, Reply(r, t')))
    requires forall j :: e < j < jm ==> !Asks(s[m].trace[..jm][j])
    ensures t' == t
  {
    var tr := s[m].trace;
    assert tr[..jm][km] == tr[km];
    assert km < e;
    PendingFrom(m, tr, t, km, e, jm);
  }

  lemma {:induction false} PendingFrom(me: nat, tr: seq<Entry>, t: Ticket, k: nat, e: nat, n: nat)
    requires n <= |tr| && OpenAt(me, tr[..n], t, k) && k < e <= n
    ensures SummaryOf(me, tr[..e]).pending == Some(t)
    decreases e
  {
    assert tr[..n][k] == tr[k];
    SummarySnoc(me, tr, e - 1);
    if e - 1 > k {
      assert tr[..n][e - 1] == tr[e - 1];
      PendingFrom(me, tr, t, k, e - 1, n);
    }
  }

  ghost predicate Touches(e: Entry, p: nat) {
    Names(e, p) || PutsPid(e, p)
  }

  /** Between the insertion of an older ticket and the start of a party, some entry names its owner
      or replaces it. */
  lemma IsTouched(c: Config, s: System, m: nat, jm: nat, u: Ticket, i: nat) returns (n: nat)
    requires Supported(c) && Inv(c, s) && LeadsAt(s, m, jm) && Before(u, LeadTicket(s, m, jm))
    requires i < jm && Puts(s[m].trace[i]) == Some(u)
    ensures i < n < jm && Touches(s[m].trace[n], u.pid)
  {
    var tr := s[m].trace[..jm];
    var km := AtTheStart(c, s, m, jm);
    NotAheadOfHead(SummaryOf(m, tr).queue, u);
    QueueContent(m, tr, u);
    assert !HeldFrom(tr, u, i);
    n :| i < n < jm && Touches(tr[n], u.pid);
  }

  lemma {:induction false} Earliest(tr: seq<Entry>, p: nat, i: nat, n: nat) returns (f: nat)
    requires i < n < |tr| && Touches(tr[n], p)
    ensures i < f <= n && Touches(tr[f], p) && forall x :: i < x < f ==> !Touches(tr[x], p)
    decreases n
  {
    if x: nat :| i < x < n && Touches(tr[x], p) {
      f := Earliest(tr, p, i, x);
    } else {
      f := n;
    }
  }

  /** A newer request cannot come in before the party that served the older one. */
  lemma {:induction false} NotReplacedFirst(c: Config, s: System, m: nat, u: Ticket, k: nat, i: nat, n: nat)
    requires Supported(c) && Orderly(c, s) && m < |s| && IssuedBy(s, u, k)
    requires i < n < |s[m].trace| && Puts(s[m].trace[i]) == Some(u)
    requires forall x :: i < x < n ==> !Touches(s[m].trace[x], u.pid)
    ensures !PutsPid(s[m].trace[n], u.pid)
    decreases u.ts, u.pid, 1
  {
    ReachableInv(c, s);
    if PutsPid(s[m].trace[n], u.pid) {
      var u' := Puts(s[m].trace[n]).value;
      var k' := PutWasIssued(c, s, m, n, u');
      PutsInOrder(c, s, m, i, n, u, u');
      PutsInOrder(c, s, u.pid, k, k', u, u');
      var l, j, b := ServedInBetween(c, s, u, k, k');
      var n' := NamedBeforeReplaced(c, s, m, u, i, n, u', k', l, j, b);
    }
  }

  lemma NamedBeforeReplaced(c: Config, s: System, m: nat, u: Ticket, i: nat, n: nat, u': Ticket, k': nat,
                            l: nat, j: nat, b: nat) returns (n': nat)
    requires Supported(c) && Inv(c, s) && CausalDelivery(s) && m < |s| && u.pid == u'.pid
    requires i < n < |s[m].trace| && Puts(s[m].trace[i]) == Some(u) && Puts(s[m].trace[n]) == Some(u')
    requires IssuedBy(s, u', k') && (u.pid == m ==> k' == n)
    requires b < k' && SeenAt(s, u.pid, b, l, j) && Serves(s, l, j, u)
    ensures i < n' < n && Names(s[m].trace[n'], u.pid)
  {
    n' := b;
    if u.pid != m {
      var k := PutWasIssued(c, s, m, n, u');
      n' := PartyBeforeRequest(c, s, m, n, u.pid, u', k', b, l, j);
    }
    ServesNames(s, m, n', l, j, u);
    var i' := RequestBeforeParty(c, s, m, n', l, j, u);
    SamePutOnce(c, s, m, i, i', u);
  }

  /** A party serving an older ticket of the same process cannot come in after the newer request. */
  lemma {:induction false} SeenBeforeNewer(c: Config, s: System, m: nat, u: Ticket, k: nat, i: nat, x: Ticket, i': nat,
                                           l: nat, j: nat, n: nat)
    requires Supported(c) && Orderly(c, s) && m < |s| && IssuedBy(s, u, k)
    requires i' < i < |s[m].trace| && Puts(s[m].trace[i]) == Some(u) && Puts(s[m].trace[i']) == Some(x)
    requires x.pid == u.pid && SeenAt(s, m, n, l, j) && Serves(s, l, j, x)
    requires x.ts < u.ts
    ensures n < i
    decreases x.ts, x.pid, 3
  {
    ReachableInv(c, s);
    var q := u.pid;
    var kx := PutWasIssued(c, s, m, i', x);
    PutsInOrder(c, s, q, kx, k, x, u);
    var b := SeenBeforeAsking(c, s, x, kx, k, l, j);
    var n' := b;
    if q != m {
      var k0 := PutWasIssued(c, s, m, i, u);
      n' := PartyBeforeRequest(c, s, m, i, q, u, k, b, l, j);
    } else {
      SamePutOnce(c, s, m, i, k, u);
    }
    SeenOnce(c, s, m, n, n', l, j);
  }

  // ---------- What the removals by process identifier hit ----------

  /** A party removes by process identifier, but the ticket it hits is always the one it serves: a
      party start that comes late never removes a newer request. */
  lemma RemovalIsExact(c: Config, s: System, p: nat, n: nat, l: nat, j: nat, t: Ticket)
    requires Supported(c) && Orderly(c, s) && SeenAt(s, p, n, l, j)
    requires t in SummaryOf(p, s[p].trace[..n]).queue && t.pid in Members(s, l, j)
    ensures Serves(s, l, j, t)
  {
    ReachableInv(c, s);
    QueueContent(p, s[p].trace[..n], t);
    var i: nat :| HeldFrom(s[p].trace[..n], t, i);
    var x := MemberIsServed(c, s, l, j, t.pid);
    var i' := RequestBeforeParty(c, s, p, n, l, j, x);
    assert s[p].trace[..n][i] == s[p].trace[i] && s[p].trace[..n][i'] == s[p].trace[i'];
    PutsInOrder(c, s, p, i, i', t, x);
    if i' < i {
      var k := PutWasIssued(c, s, p, i, t);
      SeenBeforeNewer(c, s, p, t, k, i, x, i', l, j, n);
    }
    assert i == i';
  }

  /** A party that names a process comes to it, or is started by it, while the very request that
      the party serves is pending. */
  lemma PendingIsServed(c: Config, s: System, p: nat, n: nat, l: nat, j: nat)
    requires Supported(c) && Orderly(c, s) && SeenAt(s, p, n, l, j) && p in Members(s, l, j)
    ensures SummaryOf(p, s[p].trace[..n]).pending.Some?
    ensures Serves(s, l, j, SummaryOf(p, s[p].trace[..n]).pending.value)
  {
    ReachableInv(c, s);
    var tr := s[p].trace[..n];
    var x := MemberIsServed(c, s, l, j, p);
    var i := RequestBeforeParty(c, s, p, n, l, j, x);
    PutWasOwn(c, s, p, i, x);
    assert tr[i] == s[p].trace[i];
    match SummaryOf(p, tr).pending {
      case None =>
        var b := PendingClosed(p, tr, i);
        assert tr[b] == s[p].trace[b];
        NotNamedTwice(c, s, p, n, l, j, x, i, b);
      case Some(u) =>
        var k := PendingOpen(p, tr, u);
        assert tr[k] == s[p].trace[k];
        if i < k {
          SeenAlready(c, s, p, n, l, j, x, i, k);
        }
    }
  }

  lemma SeenAlready(c: Config, s: System, p: nat, n: nat, l: nat, j: nat, x: Ticket, i: nat, k: nat)
    requires Supported(c) && Orderly(c, s) && SeenAt(s, p, n, l, j) && Serves(s, l, j, x)
    requires x.pid == p && IssuedBy(s, x, i) && i < k < |s[p].trace| && Asks(s[p].trace[k])
    ensures n < k
  {
    ReachableInv(c, s);
    var b := SeenBeforeAsking(c, s, x, i, k, l, j);
    SeenOnce(c, s, p, b, n, l, j);
  }

  /** A process sees itself named on a ticket it has issued before. */
  lemma NamedOnOwn(c: Config, s: System, p: nat, b: nat) returns (l: nat, j: nat, x: Ticket, i: nat)
    requires Supported(c) && Inv(c, s) && CausalDelivery(s) && p < |s|
    requires b < |s[p].trace| && Names(s[p].trace[b], p)
    ensures SeenAt(s, p, b, l, j) && Serves(s, l, j, x) && x.pid == p && IssuedBy(s, x, i) && i < b
  {
    l, j, x := NamingServes(c, s, p, b, p);
    i := RequestBeforeParty(c, s, p, b, l, j, x);
    PutWasOwn(c, s, p, i, x);
  }

  lemma NotNamedTwice(c: Config, s: System, p: nat, n: nat, l: nat, j: nat, x: Ticket, i: nat, b: nat)
    requires Supported(c) && Orderly(c, s) && SeenAt(s, p, n, l, j) && Serves(s, l, j, x)
    requires x.pid == p && IssuedBy(s, x, i) && i < b < n
    ensures !Names(s[p].trace[b], p)
  {
    ReachableInv(c, s);
    if Names(s[p].trace[b], p) {
      var l', j', x', i' := NamedOnOwn(c, s, p, b);
      if i' < i {
        SeenAlready(c, s, p, b, l', j', x', i', i);
      } else if i < i' {
        SeenAlready(c, s, p, n, l, j, x, i, i');
      } else {
        ServedOnce(c, s, x, l, j, l', j');
        SeenOnce(c, s, p, n, b, l, j);
      }
    }
  }

  /** So a delivered party start never finds a process it names idle or in another party. */
  lemma ArrivalFindsPending(c: Config, s: System, from: nat, to: nat)
    requires Supported(c) && Reachable(c, s) && Enabled(c, s, Deliver(from, to))
    requires Orderly(c, Next(c, s, Deliver(from, to)))
    requires s[from].out[to][0].PartyStart? && to in s[from].out[to][0].participants
    ensures s[to].node.state.WaitingForReplies? || s[to].node.state.Queued?
    ensures s[to].node.pending.Some?
    ensures exists j :: LeadsAt(s, from, j) && PartyOf(s, from, j) == s[from].out[to][0]
                        && Serves(s, from, j, s[to].node.pending.value)
  {
    ReachableInv(c, s);
    var j := UnderWayWasSent(c, s, from, to, 0);
    HistoryAfterDelivery(c, s, from, to);
    ArrivalServes(c, s, Next(c, s, Deliver(from, to)), from, to, j);
    assert Serves(s, from, j, s[to].node.pending.value);
  }

  lemma ArrivalServes(c: Config, s: System, s': System, from: nat, to: nat, j: nat)
    requires Supported(c) && Orderly(c, s') && |s| == |s'| && to < |s| && from != to
    requires LeadsAt(s, from, j) && to in Members(s, from, j) && s'[from].trace == s[from].trace
    requires |s[to].trace| < |s'[to].trace| && s'[to].trace[..|s[to].trace|] == s[to].trace
    requires s'[to].trace[|s[to].trace|] == In(Net(from, PartyOf(s, from, j)))
    ensures SummaryOf(to, s[to].trace).pending.Some?
    ensures Serves(s, from, j, SummaryOf(to, s[to].trace).pending.value)
  {
    assert LeadsAt(s', from, j) && SeenAt(s', to, |s[to].trace|, from, j);
    PendingIsServed(c, s', to, |s[to].trace|, from, j);
  }

  lemma HistoryAfterDelivery(c: Config, s: System, from: nat, to: nat)
    requires Supported(c) && Inv(c, s) && Enabled(c, s, Deliver(from, to))
    ensures from != to
    ensures var s' := Next(c, s, Deliver(from, to));
            && |s'| == |s| && s'[from].trace == s[from].trace && |s'[to].trace| > |s[to].trace|
            && s'[to].trace[..|s[to].trace|] == s[to].trace
            && s'[to].trace[|s[to].trace|] == In(Net(from, s[from].out[to][0]))
  {
    RaisedIsAdmissible(c, s, Deliver(from, to));
    var actions := StepTraces(c, s, Deliver(from, to));
  }

  // ---------- A quiet network ----------

  /** The ticket was issued, and no party started so far serves it. */
  ghost predicate TicketUnserved(s: System, t: Ticket) {
    && (exists k: nat :: IssuedBy(s, t, k))
    && forall l, j :: LeadsAt(s, l, j) ==> !Serves(s, l, j, t)
  }

  /** On a quiet network every queue holds exactly the tickets no party serves. */
  lemma QuietTickets(c: Config, s: System, q: nat, t: Ticket)
    requires Supported(c) && Orderly(c, s) && Quiet(s) && q < |s|
    ensures t in s[q].node.queue <==> TicketUnserved(s, t)
  {
    ReachableInv(c, s);
    QueueContent(q, s[q].trace, t);
    if TicketUnserved(s, t) {
      var i := UnservedIsHeld(c, s, q, t);
    }
    if i: nat :| HeldFrom(s[q].trace, t, i) {
      var k := PutWasIssued(c, s, q, i, t);
      forall l, j | LeadsAt(s, l, j) ensures !Serves(s, l, j, t) {
        HeldIsUnserved(c, s, q, t, i, l, j);
      }
    }
  }

  lemma UnservedIsHeld(c: Config, s: System, q: nat, t: Ticket) returns (i: nat)
    requires Supported(c) && Orderly(c, s) && Quiet(s) && q < |s| && TicketUnserved(s, t)
    ensures HeldFrom(s[q].trace, t, i)
  {
    ReachableInv(c, s);
    i := ArrivedWhenQuiet(c, s, q, t);
    if !HeldFrom(s[q].trace, t, i) {
      var e: nat :| i < e < |s[q].trace| && Touches(s[q].trace[e], t.pid);
      var k: nat :| IssuedBy(s, t, k);
      var n, l, j := TouchedMeansServed(c, s, q, t, k, i, e);
    }
  }

  lemma ArrivedWhenQuiet(c: Config, s: System, q: nat, t: Ticket) returns (i: nat)
    requires Supported(c) && Inv(c, s) && Quiet(s) && q < |s| && exists k: nat :: IssuedBy(s, t, k)
    ensures i < |s[q].trace| && Puts(s[q].trace[i]) == Some(t)
  {
    var k: nat :| IssuedBy(s, t, k);
    if t.pid == q {
      i := k;
    } else {
      SentIsSomewhere(c, s, t.pid, q, k, Request(t));
      i :| 0 <= i < |s[q].trace| && s[q].trace[i] == In(Net(t.pid, Request(t)));
    }
  }

  lemma HeldIsUnserved(c: Config, s: System, q: nat, t: Ticket, i: nat, l: nat, j: nat)
    requires Supported(c) && Orderly(c, s) && Quiet(s) && q < |s| && LeadsAt(s, l, j)
    requires HeldFrom(s[q].trace, t, i)
    ensures !Serves(s, l, j, t)
  {
    ReachableInv(c, s);
    if Serves(s, l, j, t) {
      var n := j;
      if q != l {
        SentIsSomewhere(c, s, l, q, j, PartyOf(s, l, j));
        n :| 0 <= n < |s[q].trace| && s[q].trace[n] == In(Net(l, PartyOf(s, l, j)));
      }
      ServesNames(s, q, n, l, j, t);
      var i' := RequestBeforeParty(c, s, q, n, l, j, t);
      SamePutOnce(c, s, q, i, i', t);
    }
  }

  /** On a quiet network the owner of an unserved ticket is queued on it. */
  lemma QuietOwnerIsQueued(c: Config, s: System, t: Ticket)
    requires Supported(c) && Orderly(c, s) && Quiet(s) && TicketUnserved(s, t)
    ensures t.pid < |s| && s[t.pid].node.state.Queued? && s[t.pid].node.pending == Some(t)
  {
    ReachableInv(c, s);
    QuietTickets(c, s, t.pid, t);
    Composition(c, s, t.pid);
    SamePidSameTicket(s[t.pid].node.queue);
    NobodyWaitsWhenQuiet(c, s, t.pid);
  }

  /** Progress with repeated requests: on a quiet network all replicas agree, the oldest unserved
      ticket heads them, and no valid party of waiting processes contains its owner. */
  lemma OrderlyProgress(c: Config, s: System, t: Ticket)
    requires Supported(c) && Orderly(c, s) && Quiet(s)
    requires TicketUnserved(s, t) && forall u :: TicketUnserved(s, u) ==> u == t || Before(t, u)
    ensures forall u :: TicketUnserved(s, u) ==>
              u.pid < |s| && s[u.pid].node.state.Queued? && s[u.pid].node.pending == Some(u)
    ensures forall p, q :: 0 <= p < |s| && 0 <= q < |s| ==> s[p].node.queue == s[q].node.queue
    ensures forall q :: 0 <= q < |s| ==> s[q].node.queue != [] && s[q].node.queue[0] == t
    ensures forall g: set<nat> ::
              t.pid in g && (forall r :: r in g ==> exists u :: TicketUnserved(s, u) && u.pid == r) ==> !Parties.ValidGroup(c, g)
  {
    forall u | TicketUnserved(s, u)
      ensures u.pid < |s| && s[u.pid].node.state.Queued? && s[u.pid].node.pending == Some(u)
    {
      QuietOwnerIsQueued(c, s, u);
    }
    var waiting := iset u | TicketUnserved(s, u);
    forall q: nat | q < |s| ensures Holds(s, q, waiting) {
      forall u ensures u in s[q].node.queue <==> u in waiting {
        QuietTickets(c, s, q, u);
      }
    }
    AgreedQueues(c, s, waiting, t);
  }

  // ---------- How the assumptions compare ----------

  /** Causal delivery brings requests ahead of party starts. */
  lemma CausalIsRequestFirst(c: Config, s: System)
    requires Supported(c) && Reachable(c, s) && CausalDelivery(s)
    ensures RequestFirst(s)
  {
    ReachableInv(c, s);
    forall p, i, r | 0 <= p < |s| && 0 <= i < |s[p].trace| && s[p].trace[i].In? && Names(s[p].trace[i], r) && r != p
      ensures exists k :: 0 <= k < i && PutsPid(s[p].trace[k], r)
    {
      var l, j, x := NamingServes(c, s, p, i, r);
      var k := RequestBeforeParty(c, s, p, i, l, j, x);
    }
  }

  /** Between two processes FIFO channels already deliver causally. */
  lemma TwoProcessesAreCausal(c: Config, s: System)
    requires Supported(c) && Reachable(c, s) && c.worldSize == 2
    ensures CausalDelivery(s)
  {
    ReachableInv(c, s);
    forall p, n, b, m', a, m | ComesAfter(s, p, n, b, m', a, m) ensures ReceivedBefore(s, p, n, a, m) {
      OnlyOnePeer(c, s, p, n, b, m', a, m);
    }
  }

  lemma OnlyOnePeer(c: Config, s: System, p: nat, n: nat, b: nat, m': Message, a: nat, m: Message)
    requires c.bearWeight > 0 && Inv(c, s) && c.worldSize == 2 && ComesAfter(s, p, n, b, m', a, m)
    ensures ReceivedBefore(s, p, n, a, m)
  {
    NobodyElse(c, s, p, n, b, m', a, m);
    KnownIsEarlier(c, s, b, m, m');
    FifoOrder(c, s, p, b, n, m', m);
  }

  lemma NobodyElse(c: Config, s: System, p: nat, n: nat, b: nat, m': Message, a: nat, m: Message)
    requires c.bearWeight > 0 && Inv(c, s) && c.worldSize == 2 && ComesAfter(s, p, n, b, m', a, m)
    ensures a == b
  {
    var sent := ReceivedWasSent(c, s, p, b, n, m');
    SentIsGood(c, a, s[a].trace, p, m);
  }

  /** With one request each, no reply is stale. */
  lemma OneShotIsNeverStale(c: Config, s: System)
    requires Supported(c) && Reachable(c, s) && OneShot(s)
    ensures NoStaleReply(s)
  {
    ReachableInv(c, s);
    forall p, i, q, r, t | 0 <= p < |s| && 0 <= i < |s[p].trace| && s[p].trace[i] == In(Net(q, Reply(r, t)))
                           && SummaryOf(p, s[p].trace[..i]).pending.Some?
      ensures t == SummaryOf(p, s[p].trace[..i]).pending.value
    {
      var k := ReplyAnswersOwnRequest(c, s, p, q, i, r, t);
      var k' := PendingOpen(p, s[p].trace[..i], SummaryOf(p, s[p].trace[..i]).pending.value);
      assert s[p].trace[..i][k'] == s[p].trace[k'];
    }
  }
}
