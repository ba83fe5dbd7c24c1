/** What holds in every run, however often a process asks: time, FIFO, replies, parties. */
module Ordering {
  import opened Types
  import opened Queue
  import opened NodeModel
  import opened Process
  import opened Traces
  import opened Network
  import opened Histories
  import Parties

  /** A state some run leads to. */
  ghost predicate Reachable(c: Config, s: System)
    requires c.bearWeight > 0
  {
    exists steps :: IsRun(c, steps) && Run(c, steps) == s
  }

  lemma ReachableInv(c: Config, s: System)
    requires Supported(c) && Reachable(c, s)
    ensures Inv(c, s)
  {
    var steps :| IsRun(c, steps) && Run(c, steps) == s;
    RunsKeepInv(c, steps);
  }

  lemma NextReachable(c: Config, s: System, step: Step)
    requires Supported(c) && Reachable(c, s) && Enabled(c, s, step)
    ensures Reachable(c, Next(c, s, step))
  {
    var steps :| IsRun(c, steps) && Run(c, steps) == s;
    assert (steps + [step])[..|steps|] == steps;
    assert IsRun(c, steps + [step]) && Run(c, steps + [step]) == Next(c, s, step);
  }

  // ---------- Channels ----------

  lemma EarlierInStream(got: seq<Message>, rest: seq<Message>, k: nat, m': Message)
    requires Increasing(got + rest) && k < |got| && m' in got + rest && Stamp(m') < Stamp(got[k])
    ensures m' in got[..k]
  {
    var all := got + rest;
    assert all[k] == got[k];
    var k' :| 0 <= k' < |all| && all[k'] == m';
    assert k' < k;
    assert got[..k][k'] == m';
  }

  /** What was received was sent, and everything sent before it was received before it. */
  lemma FifoOrder(c: Config, s: System, p: nat, q: nat, i: nat, m: Message, m': Message)
    requires c.bearWeight > 0 && Inv(c, s) && p < |s| && q < |s|
    requires i < |s[p].trace| && s[p].trace[i] == In(Net(q, m))
    requires m' in Sends(q, s[q].trace, p) && Stamp(m') < Stamp(m)
    ensures exists j :: 0 <= j < i && s[p].trace[j] == In(Net(q, m'))
  {
    var tr := s[p].trace;
    RecvPosition(tr, i, q, m);
    SendsIncrease(c, q, s[q].trace, p);
    EarlierInStream(Recvs(tr, q), s[q].out[p], |Recvs(tr[..i], q)|, m');
    RecvIsLogged(tr[..i], q, m');
    var j :| 0 <= j < i && tr[..i][j] == In(Net(q, m'));
    assert tr[j] == In(Net(q, m'));
  }

  lemma ReceivedWasSent(c: Config, s: System, p: nat, q: nat, i: nat, m: Message) returns (j: nat)
    requires c.bearWeight > 0 && Inv(c, s) && p < |s|
    requires i < |s[p].trace| && s[p].trace[i] == In(Net(q, m))
    ensures q < |s| && q != p && GoodMessage(c, q, p, m)
    ensures m in Sends(q, s[q].trace, p)
    ensures j < |s[q].trace| && s[q].trace[j] == if m.Reply? then Out(Send(p, m)) else Out(Broadcast(m))
  {
    assert EntryOk(c, p, SummaryOf(p, s[p].trace[..i]), s[p].trace[i]);
    RecvPosition(s[p].trace, i, q, m);
    var k := |Recvs(s[p].trace[..i], q)|;
    assert Sends(q, s[q].trace, p)[k] == m;
    SentIsLogged(q, s[q].trace, p, m);
    j :| 0 <= j < |s[q].trace| && s[q].trace[j].Out? && m in Posted(q, s[q].trace[j].action, p);
    assert EntryOk(c, q, SummaryOf(q, s[q].trace[..j]), s[q].trace[j]);
  }

  /** A sent message is either received or still under way. */
  lemma SentIsSomewhere(c: Config, s: System, p: nat, q: nat, j: nat, m: Message)
    requires c.bearWeight > 0 && Inv(c, s) && p < |s| && q < |s|
    requires j < |s[p].trace| && s[p].trace[j].Out? && m in Posted(p, s[p].trace[j].action, q)
    ensures m in s[p].out[q] || exists i :: 0 <= i < |s[q].trace| && s[q].trace[i] == In(Net(p, m))
  {
    LoggedIsSent(p, s[p].trace, j, q, m);
    InEither(Recvs(s[q].trace, p), s[p].out[q], m);
    if m in Recvs(s[q].trace, p) {
      RecvIsLogged(s[q].trace, p, m);
    }
  }

  lemma InEither(a: seq<Message>, b: seq<Message>, m: Message)
    ensures m in a + b <==> m in a || m in b
  {
  }

  /** The stream from one peer never repeats or steps back in time. */
  lemma ReceivedInOrder(c: Config, s: System, p: nat, q: nat, i: nat, j: nat, m: Message, m': Message)
    requires c.bearWeight > 0 && Inv(c, s) && p < |s| && q < |s|
    requires i < j < |s[p].trace| && s[p].trace[i] == In(Net(q, m)) && s[p].trace[j] == In(Net(q, m'))
    ensures Stamp(m) < Stamp(m')
  {
    var tr := s[p].trace;
    RecvPosition(tr, i, q, m);
    RecvPosition(tr, j, q, m');
    SendsIncrease(c, q, s[q].trace, p);
    var k, k' := |Recvs(tr[..i], q)|, |Recvs(tr[..j], q)|;
    assert tr[..j][..i] == tr[..i];
    RecvPosition(tr[..j], i, q, m);
    assert Sends(q, s[q].trace, p)[k] == m && Sends(q, s[q].trace, p)[k'] == m';
  }

  /** Along every channel timestamps strictly increase, over the whole run: what is still under
      way is later than anything already received from that sender. */
  lemma ChannelStampsIncrease(c: Config, s: System, p: nat, q: nat)
    requires Supported(c) && Reachable(c, s) && p < c.worldSize && q < c.worldSize
    ensures |s| == c.worldSize && |s[p].out| == c.worldSize
    ensures Increasing(s[p].out[q])
    ensures forall i, m, k :: 0 <= i < |s[q].trace| && s[q].trace[i] == In(Net(p, m)) && 0 <= k < |s[p].out[q]|
              ==> Stamp(m) < Stamp(s[p].out[q][k])
    ensures forall k :: 0 <= k < |s[p].out[q]| ==> Stamp(s[p].out[q][k]) <= s[p].node.clock
  {
    ReachableInv(c, s);
    SendsIncrease(c, p, s[p].trace, q);
    SentBound(p, s[p].trace, q);
    var got := Recvs(s[q].trace, p);
    SplitStream(got, s[p].out[q], SummaryOf(p, s[p].trace).maxStamp);
    forall i, m, k | 0 <= i < |s[q].trace| && s[q].trace[i] == In(Net(p, m)) && 0 <= k < |s[p].out[q]|
      ensures Stamp(m) < Stamp(s[p].out[q][k])
    {
      RecvPosition(s[q].trace, i, p, m);
    }
  }

  lemma SplitStream(got: seq<Message>, rest: seq<Message>, bound: nat)
    requires Increasing(got + rest)
    requires forall k :: 0 <= k < |got + rest| ==> Stamp((got + rest)[k]) <= bound
    ensures Increasing(rest)
    ensures forall i, k :: 0 <= i < |got| && 0 <= k < |rest| ==> Stamp(got[i]) < Stamp(rest[k])
    ensures forall k :: 0 <= k < |rest| ==> Stamp(rest[k]) <= bound
  {
    assert forall k :: 0 <= k < |rest| ==> rest[k] == (got + rest)[k + |got|];
    assert forall i :: 0 <= i < |got| ==> got[i] == (got + rest)[i];
  }

  // ---------- Causality ----------

  /** `b` had sent or received `m` before it sent `m'`. */
  ghost predicate KnownBefore(s: System, b: nat, m: Message, m': Message) {
    b < |s| && exists i, j :: 0 <= i < j < |s[b].trace|
                              && Carries(s[b].trace[i], m) && s[b].trace[j].Out? && Carries(s[b].trace[j], m')
  }

  lemma KnownIsEarlier(c: Config, s: System, b: nat, m: Message, m': Message)
    requires c.bearWeight > 0 && Inv(c, s) && KnownBefore(s, b, m, m')
    ensures Stamp(m) < Stamp(m')
  {
    var i, j :| 0 <= i < j < |s[b].trace| && Carries(s[b].trace[i], m)
                && s[b].trace[j].Out? && Carries(s[b].trace[j], m');
    SentIsLater(c, b, s[b].trace, i, j, m, m');
  }

  /** Some process sent or received `m` and later sent `m'`. */
  ghost predicate Precedes(s: System, m: Message, m': Message) {
    exists p: nat :: KnownBefore(s, p, m, m')
  }

  ghost predicate LinkAt(s: System, ms: seq<Message>, k: nat) {
    k + 1 < |ms| && Precedes(s, ms[k], ms[k + 1])
  }

  ghost predicate CausalChain(s: System, ms: seq<Message>) {
    forall k: nat :: k + 1 < |ms| ==> LinkAt(s, ms, k)
  }

  /** A causal chain leads from `m` to `m'`. */
  ghost predicate HappensBefore(s: System, m: Message, m': Message) {
    exists ms: seq<Message> :: IsChain(s, ms, m, m')
  }

  ghost predicate IsChain(s: System, ms: seq<Message>, m: Message, m': Message) {
    |ms| >= 2 && ms[0] == m && ms[|ms| - 1] == m' && CausalChain(s, ms)
  }

  /** Along a chain the timestamps grow, up to each of its messages. */
  lemma {:induction false} ChainIncreases(c: Config, s: System, ms: seq<Message>, i: nat)
    requires c.bearWeight > 0 && Inv(c, s) && CausalChain(s, ms) && 0 < i < |ms|
    ensures Stamp(ms[0]) < Stamp(ms[i])
  {
    assert LinkAt(s, ms, i - 1);
    LinkIncreases(c, s, ms[i - 1], ms[i]);
    if i > 1 {
      ChainIncreases(c, s, ms, i - 1);
    }
  }

  lemma LinkIncreases(c: Config, s: System, m: Message, m': Message)
    requires c.bearWeight > 0 && Inv(c, s) && Precedes(s, m, m')
    ensures Stamp(m) < Stamp(m')
  {
    var p: nat :| KnownBefore(s, p, m, m');
    KnownIsEarlier(c, s, p, m, m');
  }

  /** Lamport's clock condition: along any causal chain of messages timestamps strictly grow. */
  lemma TimestampsRespectCausality(c: Config, s: System, ms: seq<Message>)
    requires Supported(c) && Reachable(c, s)
    requires |ms| >= 2 && CausalChain(s, ms)
    ensures Stamp(ms[0]) < Stamp(ms[|ms| - 1])
  {
    ReachableInv(c, s);
    ChainIncreases(c, s, ms, |ms| - 1);
  }

  /** No two requests of a run, of one process or of two, carry the same ticket. */
  lemma TicketsAreDistinct(c: Config, s: System, p: nat, q: nat, i: nat, j: nat, t: Ticket)
    requires Supported(c) && Reachable(c, s) && p < |s| && q < |s|
    requires i < |s[p].trace| && AsksFor(s[p].trace[i], t)
    requires j < |s[q].trace| && AsksFor(s[q].trace[j], t)
    ensures p == q && i == j
  {
    ReachableInv(c, s);
    assert EntryOk(c, p, SummaryOf(p, s[p].trace[..i]), s[p].trace[i]);
    assert EntryOk(c, q, SummaryOf(q, s[q].trace[..j]), s[q].trace[j]);
    if i < j {
      SentIsLater(c, p, s[p].trace, i, j, Request(t), Request(t));
    } else if j < i {
      SentIsLater(c, p, s[p].trace, j, i, Request(t), Request(t));
    }
  }

  // ---------- Replies ----------

  lemma ReplyIsBacked(c: Config, s: System, p: nat, q: nat, j: nat, r: Ticket, t: Ticket) returns (k: nat)
    requires c.bearWeight > 0 && Inv(c, s) && p < |s| && q < |s|
    requires j < |s[q].trace| && s[q].trace[j] == Out(Send(p, Reply(r, t)))
    ensures k < |s[p].trace| && AsksFor(s[p].trace[k], t)
  {
    ReplyFollowsRequest(c, q, s[q].trace, j, p, Reply(r, t));
    k := ReceivedWasSent(c, s, q, p, j - 1, Request(t));
  }

  /** The reply answers a ticket its receiver issued. */
  lemma ReplyAnswersOwnRequest(c: Config, s: System, p: nat, q: nat, i: nat, r: Ticket, t: Ticket) returns (k: nat)
    requires c.bearWeight > 0 && Inv(c, s) && p < |s|
    requires i < |s[p].trace| && s[p].trace[i] == In(Net(q, Reply(r, t)))
    ensures k < i && AsksFor(s[p].trace[k], t)
  {
    var j := ReceivedWasSent(c, s, p, q, i, Reply(r, t));
    k := ReplyIsBacked(c, s, p, q, j, r, t);
    if i < k {
      SentIsLater(c, p, s[p].trace, i, k, Reply(r, t), Request(t));
    }
  }

  /** When `p` handles `q`'s reply to ticket `t`, it has already handled every request of `q` that
      precedes `t`, including any that `q` might issue afterwards: there are none left to come. */
  lemma MatchingReply(c: Config, s: System, p: nat, q: nat, i: nat, r: Ticket, t: Ticket, k: nat, u: Ticket)
    requires Supported(c) && Reachable(c, s) && p < |s| && q < |s|
    requires i < |s[p].trace| && s[p].trace[i] == In(Net(q, Reply(r, t)))
    requires k < |s[q].trace| && AsksFor(s[q].trace[k], u) && Before(u, t)
    ensures exists j :: 0 <= j < i && s[p].trace[j] == In(Net(q, Request(u)))
  {
    ReachableInv(c, s);
    var j := ReceivedWasSent(c, s, p, q, i, Reply(r, t));
    LoggedIsSent(q, s[q].trace, k, p, Request(u));
    FifoOrder(c, s, p, q, i, Reply(r, t), Request(u));
  }

  function Asked(ms: seq<Message>): seq<Ticket> {
    if ms == [] then []
    else Asked(ms[..|ms| - 1]) + (if ms[|ms| - 1].Request? then [ms[|ms| - 1].requestTicket] else [])
  }

  function Answered(ms: seq<Message>): seq<Ticket> {
    if ms == [] then []
    else Answered(ms[..|ms| - 1]) + (if ms[|ms| - 1].Reply? then [ms[|ms| - 1].answered] else [])
  }

  lemma {:induction false} AskedConcat(a: seq<Message>, b: seq<Message>)
    ensures Asked(a + b) == Asked(a) + Asked(b)
    ensures Answered(a + b) == Answered(a) + Answered(b)
  {
    if b == [] {
      assert a + b == a;
    } else {
      AskedConcat(a, b[..|b| - 1]);
      assert (a + b)[..|a + b| - 1] == a + b[..|b| - 1];
    }
  }

  lemma AskedSnoc(a: seq<Message>, b: seq<Message>)
    requires |b| <= 1
    ensures Asked(a + b) == Asked(a) + (if b != [] && b[0].Request? then [b[0].requestTicket] else [])
    ensures Answered(a + b) == Answered(a) + (if b != [] && b[0].Reply? then [b[0].answered] else [])
  {
    if b == [] {
      assert a + b == a;
    } else {
      assert (a + b)[..|a|] == a;
    }
  }

  /** A process answers the requests of a peer in the order it received them. */
  lemma {:induction false} RepliesMatchRequests(c: Config, me: nat, tr: seq<Entry>, q: nat)
    requires TraceOk(c, me, tr)
    ensures Asked(Recvs(tr, q)) == Answered(Sends(me, tr, q)) +
              (match SummaryOf(me, tr).owed case Some((f, t)) => if f == q then [t] else [] case None => [])
  {
    if tr != [] {
      var n := |tr| - 1;
      PrefixOk(c, me, tr, n);
      RepliesMatchRequests(c, me, tr[..n], q);
      assert EntryOk(c, me, SummaryOf(me, tr[..n]), tr[n]);
      AskedSnoc(Recvs(tr[..n], q), Arrived(tr[n], q));
      if tr[n].Out? {
        AskedSnoc(Sends(me, tr[..n], q), Posted(me, tr[n].action, q));
      } else {
        AskedSnoc(Sends(me, tr[..n], q), []);
      }
    }
  }

  lemma AnswersInTransit(c: Config, s: System, p: nat, q: nat)
    requires c.bearWeight > 0 && Inv(c, s) && p < |s| && q < |s|
    ensures Asked(Recvs(s[q].trace, p)) == Answered(Recvs(s[p].trace, q)) + Answered(s[q].out[p])
  {
    RepliesMatchRequests(c, q, s[q].trace, p);
    AskedConcat(Recvs(s[p].trace, q), s[q].out[p]);
    assert Asked(Recvs(s[q].trace, p)) == Answered(Sends(q, s[q].trace, p)) + [];
  }

  /** The tickets a process asked for, in order. */
  function Issued(tr: seq<Entry>): seq<Ticket> {
    if tr == [] then []
    else Issued(tr[..|tr| - 1]) + (if Asks(tr[|tr| - 1]) then [tr[|tr| - 1].action.msg.requestTicket] else [])
  }

  /** Every request goes to every peer. */
  lemma {:induction false} IssuedIsSent(c: Config, me: nat, tr: seq<Entry>, q: nat)
    requires TraceOk(c, me, tr) && q != me
    ensures Asked(Sends(me, tr, q)) == Issued(tr)
  {
    if tr != [] {
      var n := |tr| - 1;
      PrefixOk(c, me, tr, n);
      IssuedIsSent(c, me, tr[..n], q);
      assert EntryOk(c, me, SummaryOf(me, tr[..n]), tr[n]);
      AskedSnoc(Sends(me, tr[..n], q), if tr[n].Out? then Posted(me, tr[n].action, q) else []);
    }
  }

  /** Conservation of requests, in order: what `p` ever asked is what `q`'s replies handled so far
      answer, then the replies under way, then the requests under way. */
  lemma RequestsAreConserved(c: Config, s: System, p: nat, q: nat)
    requires Supported(c) && Reachable(c, s) && p < c.worldSize && q < c.worldSize && p != q
    ensures |s| == c.worldSize && |s[p].out| == |s[q].out| == c.worldSize
    ensures Issued(s[p].trace) == Answered(Recvs(s[p].trace, q)) + Answered(s[q].out[p]) + Asked(s[p].out[q])
    ensures |Issued(s[p].trace)|
         == |Answered(Recvs(s[p].trace, q))| + |Answered(s[q].out[p])| + |Asked(s[p].out[q])|
  {
    ReachableInv(c, s);
    AnswersInTransit(c, s, p, q);
    AskedConcat(Recvs(s[q].trace, p), s[p].out[q]);
    IssuedIsSent(c, p, s[p].trace, q);
  }

  /** A request that has left its channel was answered. */
  lemma ArrivedIsAnswered(c: Config, s: System, p: nat, q: nat, k: nat, t: Ticket) returns (i: nat, r: Ticket)
    requires c.bearWeight > 0 && Inv(c, s) && p < |s| && q < |s| && p != q
    requires k < |s[p].trace| && AsksFor(s[p].trace[k], t) && Request(t) !in s[p].out[q]
    ensures i < |s[q].trace| && s[q].trace[i] == Out(Send(p, Reply(r, t)))
  {
    SentIsSomewhere(c, s, p, q, k, Request(t));
    var j :| 0 <= j < |s[q].trace| && s[q].trace[j] == In(Net(p, Request(t)));
    RequestIsAnswered(c, q, s[q].trace, j, p, t);
    i, r := j + 1, s[q].trace[j + 1].action.msg.senderTicket;
  }

  /** While `p` waits, every peer is marked, or has the request coming, or has its reply coming. */
  lemma NobodyIsStuckWaiting(c: Config, s: System, p: nat, q: nat)
    requires Supported(c) && Reachable(c, s) && p < c.worldSize && q < c.worldSize && p != q
    requires |s| == c.worldSize && s[p].node.state.WaitingForReplies?
    ensures |s[p].node.tracker| == c.worldSize && |s[p].out| == |s[q].out| == c.worldSize
    ensures s[p].node.pending.Some?
    ensures var t := s[p].node.pending.value;
            || s[p].node.tracker[q]
            || Request(t) in s[p].out[q]
            || exists r :: Reply(r, t) in s[q].out[p]
  {
    ReachableInv(c, s);
    var t := s[p].node.pending.value;
    var k := PendingOpen(p, s[p].trace, t);
    if Request(t) !in s[p].out[q] {
      var i, r := ArrivedIsAnswered(c, s, p, q, k, t);
      SentIsSomewhere(c, s, q, p, i, Reply(r, t));
      if Reply(r, t) !in s[q].out[p] {
        var j :| 0 <= j < |s[p].trace| && s[p].trace[j] == In(Net(q, Reply(r, t)));
        ReplyCounts(c, s, p, q, j, r, t, k);
      }
    }
  }

  lemma ReplyCounts(c: Config, s: System, p: nat, q: nat, j: nat, r: Ticket, t: Ticket, k: nat)
    requires c.bearWeight > 0 && Inv(c, s) && p < |s|
    requires j < |s[p].trace| && s[p].trace[j] == In(Net(q, Reply(r, t))) && OpenAt(p, s[p].trace, t, k)
    ensures q in SummaryOf(p, s[p].trace).replied
  {
    var k' := ReplyAnswersOwnRequest(c, s, p, q, j, r, t);
    if k' < k {
      SentIsLater(c, p, s[p].trace, k', k, Request(t), Request(t));
    }
    assert RepliedAt(s[p].trace, q, j);
    RepliedSince(p, s[p].trace, q);
  }

  // ---------- Parties ----------

  /** Every party start ever sent, received or not, obeys the rules of the meadow. */
  lemma EveryPartyIsValid(c: Config, s: System, p: nat, j: nat)
    requires Supported(c) && Reachable(c, s) && p < |s|
    requires j < |s[p].trace| && Leads(s[p].trace[j])
    ensures Parties.ValidParty(c, p, s[p].trace[j].action.msg.participants)
    ensures s[p].trace[j].action.msg.leaderTicket.pid == p && s[p].trace[j].action.msg.partyId < TWO_32
  {
    ReachableInv(c, s);
    assert EntryOk(c, p, SummaryOf(p, s[p].trace[..j]), s[p].trace[j]);
  }

  /** So does every party start waiting in a channel. */
  lemma ChannelPartiesAreValid(c: Config, s: System, p: nat, q: nat, k: nat)
    requires Supported(c) && Reachable(c, s) && p < |s| && q < |s[p].out| && k < |s[p].out[q]|
    ensures GoodMessage(c, p, q, s[p].out[q][k])
  {
    ReachableInv(c, s);
    var m := s[p].out[q][k];
    assert Sends(p, s[p].trace, q)[|Recvs(s[q].trace, p)| + k] == m;
    SentIsGood(c, p, s[p].trace, q, m);
  }

  /** The group a head of the queue obtains always contains it: the skip branch is dead code. */
  lemma LeaderIsNeverMissing(c: Config, me: nat, q: seq<Ticket>)
    requires Supported(c) && WellFormed(q) && Parties.PidsBelow(q, c.worldSize) && AmLeader(me, q)
    ensures BuildParty(c, q).Some? ==> me in BuildParty(c, q).value
  {
    if BuildParty(c, q).Some? {
      Parties.BuiltPartyIsValid(c, q);
      assert BuildParty(c, q).value[0] == me;
    }
  }

  /** Between events nobody sits on a party: whoever is queued at the head of its own queue has no
      group in that queue that would do. */
  lemma NoMissedParty(c: Config, s: System, p: nat, g: set<nat>)
    requires Supported(c) && Reachable(c, s) && p < |s|
    requires s[p].node.state.Queued? && AmLeader(p, s[p].node.queue)
    requires p in g && forall r :: r in g ==> HasPid(s[p].node.queue, r)
    ensures !Parties.ValidGroup(c, g)
  {
    ReachableInv(c, s);
    Parties.NoPartyMeansNoGroup(c, s[p].node.queue, g);
  }

  // ---------- Node and local source together ----------

  /** How application state, pending ticket, queue, tracker and local source hang together. */
  lemma Composition(c: Config, s: System, p: nat)
    requires Supported(c) && Reachable(c, s) && p < |s|
    ensures var n, l := s[p].node, s[p].local;
            && |n.tracker| == c.worldSize
            && (MayWant(l) <==> n.state.Idle?)
            && (MayRelease(l) <==> n.state.InParty?)
            && (n.state.WaitingForReplies? || n.state.Queued? <==> n.pending.Some?)
            && (n.pending.Some? <==> HasPid(n.queue, p))
            && (n.pending.Some? ==> n.pending.value in n.queue && n.pending.value.pid == p)
            && (n.state.Queued? <==> AllReplies(n))
            && (n.state.Idle? || n.state.InParty? ==> n.tracker == NoReplies(c))
  {
    ReachableInv(c, s);
    assert s[p].node.tracker[p] in s[p].node.tracker;
    assert s[p].node.state.WaitingForReplies? ==> !AllReplies(s[p].node);
    var n := s[p].node;
    if n.state.Idle? || n.state.InParty? {
      assert n.tracker[0] == false;
    }
  }

  // ---------- Messages under way ----------

  lemma UnderWayIsSent(c: Config, s: System, p: nat, q: nat, k: nat)
    requires c.bearWeight > 0 && Inv(c, s) && p < |s| && q < |s| && k < |s[p].out[q]|
    ensures s[p].out[q][k] in Sends(p, s[p].trace, q)
  {
    InEither(Recvs(s[q].trace, p), s[p].out[q], s[p].out[q][k]);
  }

  lemma UnderWayWasSent(c: Config, s: System, p: nat, q: nat, k: nat) returns (j: nat)
    requires c.bearWeight > 0 && Inv(c, s) && p < |s| && q < |s| && k < |s[p].out[q]|
    ensures p != q && GoodMessage(c, p, q, s[p].out[q][k])
    ensures j < |s[p].trace|
    ensures s[p].trace[j] == if s[p].out[q][k].Reply? then Out(Send(q, s[p].out[q][k])) else Out(Broadcast(s[p].out[q][k]))
  {
    UnderWayIsSent(c, s, p, q, k);
    j := SentEntry(c, p, s[p].trace, q, s[p].out[q][k]);
  }

  lemma SentEntry(c: Config, p: nat, tr: seq<Entry>, q: nat, m: Message) returns (j: nat)
    requires TraceOk(c, p, tr) && m in Sends(p, tr, q)
    ensures p != q && GoodMessage(c, p, q, m)
    ensures j < |tr| && tr[j] == if m.Reply? then Out(Send(q, m)) else Out(Broadcast(m))
  {
    SentIsGood(c, p, tr, q, m);
    SentIsLogged(p, tr, q, m);
    j :| 0 <= j < |tr| && tr[j].Out? && m in Posted(p, tr[j].action, q);
    assert EntryOk(c, p, SummaryOf(p, tr[..j]), tr[j]);
  }

  /** The message at the head of a channel has not been received before. */
  lemma NotYetReceived(c: Config, s: System, from: nat, to: nat, n: nat)
    requires c.bearWeight > 0 && Inv(c, s) && Enabled(c, s, Deliver(from, to))
    requires n < |s[to].trace|
    ensures s[to].trace[n] != In(Net(from, s[from].out[to][0]))
  {
    var m := s[from].out[to][0];
    var got, sent := Recvs(s[to].trace, from), Sends(from, s[from].trace, to);
    SendsIncrease(c, from, s[from].trace, to);
    assert sent[|got|] == m;
    assert forall k :: 0 <= k < |got| ==> sent[k] == got[k];
    if s[to].trace[n] == In(Net(from, m)) {
      RecvPosition(s[to].trace, n, from, m);
    }
  }

  lemma HeadIsOldest(c: Config, s: System, p: nat, q: nat, k: nat)
    requires c.bearWeight > 0 && Inv(c, s) && p < |s| && q < |s[p].out| && k < |s[p].out[q]|
    ensures Stamp(s[p].out[q][0]) <= Stamp(s[p].out[q][k])
  {
    var got, sent := Recvs(s[q].trace, p), Sends(p, s[p].trace, q);
    SendsIncrease(c, p, s[p].trace, q);
    assert sent[|got|] == s[p].out[q][0] && sent[|got| + k] == s[p].out[q][k];
  }

  // ---------- Clocks ----------

  /** How far a clock can be after `k` steps. */
  ghost predicate ClocksAtMost(s: System, bound: nat) {
    forall p :: 0 <= p < |s| ==> s[p].node.clock <= bound
  }

  /** An event moves a clock at most three ahead of what it knew. */
  lemma NodeClock(c: Config, me: nat, n: NodeState, ev: Event)
    requires Handles(c, me, n, ev)
    ensures var seen := if ev.Net? then Later(n.clock, Stamp(ev.msg)) else n.clock;
            n.clock <= NodeStep(c, me, n, ev).0.clock <= seen + 3
  {
  }

  lemma DeliveredStamp(c: Config, s: System, from: nat, to: nat, bound: nat)
    requires c.bearWeight > 0 && Inv(c, s) && Enabled(c, s, Deliver(from, to)) && ClocksAtMost(s, bound)
    ensures Stamp(s[from].out[to][0]) <= bound
  {
    SentBound(from, s[from].trace, to);
    assert Sends(from, s[from].trace, to)[|Recvs(s[to].trace, from)|] == s[from].out[to][0];
  }

  lemma ActorClock(c: Config, s: System, step: Step, bound: nat)
    requires c.bearWeight > 0 && Inv(c, s) && Enabled(c, s, step) && ClocksAtMost(s, bound)
    requires Actor(step) < |s| && Handles(c, Actor(step), s[Actor(step)].node, Raised(c, s, step))
    ensures NodeStep(c, Actor(step), s[Actor(step)].node, Raised(c, s, step)).0.clock <= bound + 3
  {
    NodeClock(c, Actor(step), s[Actor(step)].node, Raised(c, s, step));
    if step.Deliver? {
      DeliveredStamp(c, s, step.from, step.to, bound);
    }
  }

  lemma OthersKeepClocks(c: Config, s: System, step: Step, pr': Proc, bound: nat)
    requires Enabled(c, s, step) && ClocksAtMost(s, bound) && Actor(step) < |s| && pr'.node.clock <= bound + 3
    ensures ClocksAtMost(Taken(c, s, step)[Actor(step) := pr'], bound + 3)
  {
  }

  lemma StepClock(c: Config, s: System, step: Step, bound: nat)
    requires Supported(c) && Inv(c, s) && Enabled(c, s, step) && ClocksAtMost(s, bound)
    ensures ClocksAtMost(Next(c, s, step), bound + 3)
  {
    var pr', actions := StepEffect(c, s, step);
    ActorClock(c, s, step, bound);
    OthersKeepClocks(c, s, step, pr', bound);
  }

  /** After `k` steps no clock exceeds `3k`, so 64-bit timestamps cannot wrap before step 2^64 / 3. */
  lemma {:induction false} ClocksAreBounded(c: Config, steps: seq<Step>)
    requires Supported(c) && IsRun(c, steps)
    ensures ClocksAtMost(Run(c, steps), 3 * |steps|)
  {
    if steps != [] {
      var n := |steps| - 1;
      ClocksAreBounded(c, steps[..n]);
      RunsKeepInv(c, steps[..n]);
      StepClock(c, Run(c, steps[..n]), steps[n], 3 * n);
    }
  }
}
