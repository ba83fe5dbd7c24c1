/** Reading facts off a single history: who is queued and why, what is pending, who replied. */
module Histories {
  import opened Types
  import opened Queue
  import opened Process
  import opened Traces
  import opened Network

  // ---------- Entries ----------

  ghost predicate Carries(e: Entry, m: Message) {
    match e
    case In(Net(_, m')) => m' == m
    case In(Local(_)) => false
    case Out(Send(_, m')) => m' == m
    case Out(Broadcast(m')) => m' == m
    case Out(Notify(_)) => false
  }

  /** The ticket an entry puts into the queue, if any. */
  function Puts(e: Entry): Option<Ticket> {
    match e
    case In(Net(_, Request(t))) => Some(t)
    case Out(Broadcast(Request(t))) => Some(t)
    case _ => None
  }

  predicate PutsPid(e: Entry, p: nat) {
    Puts(e).Some? && Puts(e).value.pid == p
  }

  /** Whether an entry is a party start, taken in or sent, that names process `p`. */
  predicate Names(e: Entry, p: nat) {
    match e
    case In(Net(_, PartyStart(_, _, members))) => p in members
    case Out(Broadcast(PartyStart(_, _, members))) => p in members
    case _ => false
  }

  /** The process issues a request of its own. */
  predicate Asks(e: Entry) {
    e.Out? && e.action.Broadcast? && e.action.msg.Request?
  }

  predicate AsksFor(e: Entry, t: Ticket) {
    e == Out(Broadcast(Request(t)))
  }

  /** The process leads a party. */
  predicate Leads(e: Entry) {
    e.Out? && e.action.Broadcast? && e.action.msg.PartyStart?
  }

  predicate RepliesFrom(e: Entry, q: nat) {
    e.In? && e.event.Net? && e.event.from == q && e.event.msg.Reply?
  }

  // ---------- Prefixes ----------

  lemma PrefixOk(c: Config, me: nat, tr: seq<Entry>, k: nat)
    requires TraceOk(c, me, tr) && k <= |tr|
    ensures TraceOk(c, me, tr[..k])
  {
    forall i | 0 <= i < k ensures EntryOk(c, me, After(me, Blank(), tr[..k][..i]), tr[..k][i]) {
      assert tr[..k][..i] == tr[..i];
    }
  }

  lemma SummarySnoc(me: nat, tr: seq<Entry>, k: nat)
    requires k < |tr|
    ensures SummaryOf(me, tr[..k + 1]) == Advance(me, SummaryOf(me, tr[..k]), tr[k])
  {
    assert tr[..k + 1] == tr[..k] + [tr[k]];
    AfterSnoc(me, Blank(), tr[..k], tr[k]);
  }

  lemma SummaryWhole(me: nat, tr: seq<Entry>)
    ensures SummaryOf(me, tr[..|tr|]) == SummaryOf(me, tr)
  {
    assert tr[..|tr|] == tr;
  }

  // ---------- Timestamps ----------

  lemma {:induction false} StampBound(me: nat, tr: seq<Entry>, i: nat, m: Message)
    requires i < |tr| && Carries(tr[i], m)
    ensures Stamp(m) <= SummaryOf(me, tr).maxStamp
  {
    if i < |tr| - 1 {
      StampBound(me, tr[..|tr| - 1], i, m);
    }
  }

  /** A sent message is stamped later than everything its sender had sent or received before. */
  lemma SentIsLater(c: Config, me: nat, tr: seq<Entry>, i: nat, j: nat, m: Message, m': Message)
    requires TraceOk(c, me, tr) && i < j < |tr|
    requires Carries(tr[i], m) && tr[j].Out? && Carries(tr[j], m')
    ensures Stamp(m) < Stamp(m')
  {
    assert EntryOk(c, me, SummaryOf(me, tr[..j]), tr[j]);
    StampBound(me, tr[..j], i, m);
  }

  ghost predicate Increasing(ms: seq<Message>) {
    forall i, j :: 0 <= i < j < |ms| ==> Stamp(ms[i]) < Stamp(ms[j])
  }

  lemma SentBound(me: nat, tr: seq<Entry>, q: nat)
    ensures forall k :: 0 <= k < |Sends(me, tr, q)| ==> Stamp(Sends(me, tr, q)[k]) <= SummaryOf(me, tr).maxStamp
  {
    forall k | 0 <= k < |Sends(me, tr, q)| ensures Stamp(Sends(me, tr, q)[k]) <= SummaryOf(me, tr).maxStamp {
      var m := Sends(me, tr, q)[k];
      SentIsLogged(me, tr, q, m);
      var i :| 0 <= i < |tr| && tr[i].Out? && m in Posted(me, tr[i].action, q);
      StampBound(me, tr, i, m);
    }
  }

  /** Everything ever sent to a peer carries strictly increasing timestamps. */
  lemma {:induction false} SendsIncrease(c: Config, me: nat, tr: seq<Entry>, q: nat)
    requires TraceOk(c, me, tr)
    ensures Increasing(Sends(me, tr, q))
  {
    if tr != [] {
      var n := |tr| - 1;
      PrefixOk(c, me, tr, n);
      SendsIncrease(c, me, tr[..n], q);
      SentBound(me, tr[..n], q);
      if tr[n].Out? {
        PostedLater(c, me, SummaryOf(me, tr[..n]), tr[n], q);
      }
    }
  }

  lemma PostedLater(c: Config, me: nat, v: Summary, e: Entry, q: nat)
    requires EntryOk(c, me, v, e) && e.Out?
    ensures |Posted(me, e.action, q)| <= 1
    ensures forall m :: m in Posted(me, e.action, q) ==> v.maxStamp < Stamp(m)
  {
  }

  // ---------- What was sent and received ----------

  lemma LoggedIsSent(me: nat, tr: seq<Entry>, i: nat, q: nat, m: Message)
    requires i < |tr| && tr[i].Out? && m in Posted(me, tr[i].action, q)
    ensures m in Sends(me, tr, q)
  {
    assert tr == tr[..i + 1] + tr[i + 1..];
    assert tr[..i + 1][..i] == tr[..i];
    SendsConcat(me, tr[..i + 1], tr[i + 1..], q);
  }

  /** Where in the stream from `q` the entry at `i` stands. */
  lemma RecvPosition(tr: seq<Entry>, i: nat, q: nat, m: Message)
    requires i < |tr| && tr[i] == In(Net(q, m))
    ensures var k := |Recvs(tr[..i], q)|;
            k < |Recvs(tr, q)| && Recvs(tr, q)[k] == m && Recvs(tr, q)[..k] == Recvs(tr[..i], q)
  {
    assert tr == tr[..i + 1] + tr[i + 1..];
    assert tr[..i + 1][..i] == tr[..i];
    RecvsConcat(tr[..i + 1], tr[i + 1..], q);
  }

  lemma {:induction false} RecvIsLogged(tr: seq<Entry>, q: nat, m: Message)
    requires m in Recvs(tr, q)
    ensures exists i :: 0 <= i < |tr| && tr[i] == In(Net(q, m))
  {
    var n := |tr| - 1;
    if m in Recvs(tr[..n], q) {
      RecvIsLogged(tr[..n], q, m);
      var i :| 0 <= i < n && tr[..n][i] == In(Net(q, m));
      assert tr[i] == In(Net(q, m));
    } else {
      assert tr[n] == In(Net(q, m));
    }
  }

  // ---------- The queue ----------

  lemma {:induction false} SummaryQueue(me: nat, tr: seq<Entry>)
    ensures WellFormed(SummaryOf(me, tr).queue)
  {
    if tr != [] {
      SummaryQueue(me, tr[..|tr| - 1]);
      QueueAdvance(me, SummaryOf(me, tr[..|tr| - 1]), tr[|tr| - 1]);
    }
  }

  /** One entry's effect on who is queued. */
  lemma QueueAdvance(me: nat, v: Summary, e: Entry)
    requires WellFormed(v.queue)
    ensures WellFormed(Advance(me, v, e).queue)
    ensures forall t :: t in Advance(me, v, e).queue <==>
              Puts(e) == Some(t) || (t in v.queue && !PutsPid(e, t.pid) && !Names(e, t.pid))
  {
    match e
    case In(Net(_, Request(t))) => InsertContents(v.queue, t);
    case Out(Broadcast(Request(t))) => InsertContents(v.queue, t);
    case In(Net(_, PartyStart(_, _, members))) => RemoveAllContents(v.queue, members);
    case Out(Broadcast(PartyStart(_, _, members))) => RemoveAllContents(v.queue, members);
    case _ =>
  }

  /** Entry `i` puts `t` into the queue, and nothing later replaces or removes it. */
  ghost predicate HeldFrom(tr: seq<Entry>, t: Ticket, i: nat) {
    && i < |tr| && Puts(tr[i]) == Some(t)
    && forall j :: i < j < |tr| ==> !Names(tr[j], t.pid) && !PutsPid(tr[j], t.pid)
  }

  /** Replica content: a ticket is queued exactly when it was put in and neither replaced nor
      named in a party since. */
  lemma {:induction false} QueueContent(me: nat, tr: seq<Entry>, t: Ticket)
    ensures t in SummaryOf(me, tr).queue <==> exists i: nat :: HeldFrom(tr, t, i)
  {
    if tr != [] {
      var n := |tr| - 1;
      var before, v := tr[..n], SummaryOf(me, tr[..n]);
      QueueContent(me, before, t);
      SummaryQueue(me, before);
      QueueAdvance(me, v, tr[n]);
      if Puts(tr[n]) == Some(t) {
        assert HeldFrom(tr, t, n);
      } else if t in v.queue && !PutsPid(tr[n], t.pid) && !Names(tr[n], t.pid) {
        var i: nat :| HeldFrom(before, t, i);
        assert HeldFrom(tr, t, i) by {
          forall j | i < j < |tr| ensures !Names(tr[j], t.pid) && !PutsPid(tr[j], t.pid) {
            assert j < n ==> before[j] == tr[j];
          }
        }
      }
      if i: nat :| HeldFrom(tr, t, i) && i < n {
        assert HeldFrom(before, t, i);
      }
    }
  }

  // ---------- Pending requests and replies ----------

  ghost predicate OpenAt(me: nat, tr: seq<Entry>, t: Ticket, k: nat) {
    && k < |tr| && AsksFor(tr[k], t)
    && forall j :: k < j < |tr| ==> !Names(tr[j], me) && !Asks(tr[j])
  }

  /** A pending ticket is the last one asked for, with no party naming the process since. */
  lemma {:induction false} PendingOpen(me: nat, tr: seq<Entry>, t: Ticket) returns (k: nat)
    requires SummaryOf(me, tr).pending == Some(t)
    ensures OpenAt(me, tr, t, k)
  {
    var n := |tr| - 1;
    if AsksFor(tr[n], t) {
      k := n;
    } else {
      k := PendingOpen(me, tr[..n], t);
    }
  }

  /** With nothing pending, every request asked for was followed by a party naming the process. */
  lemma {:induction false} PendingClosed(me: nat, tr: seq<Entry>, k: nat) returns (j: nat)
    requires SummaryOf(me, tr).pending.None?
    requires k < |tr| && Asks(tr[k])
    ensures k < j < |tr| && Names(tr[j], me)
  {
    var n := |tr| - 1;
    if Names(tr[n], me) {
      j := n;
    } else {
      j := PendingClosed(me, tr[..n], k);
    }
  }

  ghost predicate RepliedAt(tr: seq<Entry>, q: nat, i: nat) {
    i < |tr| && RepliesFrom(tr[i], q) && forall j :: i < j < |tr| ==> !Asks(tr[j])
  }

  lemma {:induction false} RepliedSince(me: nat, tr: seq<Entry>, q: nat)
    ensures q in SummaryOf(me, tr).replied <==> exists i: nat :: RepliedAt(tr, q, i)
  {
    if tr != [] {
      var n := |tr| - 1;
      var before := tr[..n];
      RepliedSince(me, before, q);
      if RepliesFrom(tr[n], q) {
        assert RepliedAt(tr, q, n);
      } else if q in SummaryOf(me, before).replied && !Asks(tr[n]) {
        var i: nat :| RepliedAt(before, q, i);
        assert RepliedAt(tr, q, i);
      }
      if i: nat :| RepliedAt(tr, q, i) && i < n {
        assert RepliedAt(before, q, i);
      }
    }
  }

  // ---------- Requests are answered at once ----------

  /** A reply directly follows the request it answers. */
  lemma ReplyFollowsRequest(c: Config, me: nat, tr: seq<Entry>, i: nat, to: nat, m: Message)
    requires TraceOk(c, me, tr) && i < |tr| && tr[i] == Out(Send(to, m))
    ensures m.Reply? && i > 0 && tr[i - 1] == In(Net(to, Request(m.answered)))
  {
    assert EntryOk(c, me, SummaryOf(me, tr[..i]), tr[i]);
    assert tr[..0] == [];
    assert i > 0;
    SummarySnoc(me, tr, i - 1);
    assert EntryOk(c, me, SummaryOf(me, tr[..i - 1]), tr[i - 1]);
  }

  lemma RequestIsAnswered(c: Config, me: nat, tr: seq<Entry>, i: nat, from: nat, t: Ticket)
    requires TraceOk(c, me, tr) && SummaryOf(me, tr).owed.None?
    requires i < |tr| && tr[i] == In(Net(from, Request(t)))
    ensures i + 1 < |tr| && tr[i + 1].Out? && tr[i + 1].action.Send? && tr[i + 1].action.to == from
    ensures tr[i + 1].action.msg.Reply? && tr[i + 1].action.msg.answered == t
  {
    SummarySnoc(me, tr, i);
    SummaryWhole(me, tr);
    assert EntryOk(c, me, SummaryOf(me, tr[..i + 1]), tr[i + 1]);
  }
}
