/** What one step does to causal delivery: kept, if the message taken overtakes nothing its sender
    knew, at first hand or through any chain of messages. */
module Causality {
  import opened Types
  import opened Process
  import opened Traces
  import opened Network
  import opened Histories
  import opened Ordering
  import opened Repeated

  // ---------- Who wrote a message ----------

  function Author(m: Message): nat {
    match m
    case Request(t) => t.pid
    case Reply(s, _) => s.pid
    case PartyStart(s, _, _) => s.pid
  }

  ghost predicate WroteAt(s: System, m: Message, i: nat) {
    var a := Author(m);
    a < |s| && i < |s[a].trace| && s[a].trace[i].Out? && Carries(s[a].trace[i], m)
  }

  /** Whatever a process has seen or sent, its author has sent. */
  lemma SeenWasWritten(c: Config, s: System, b: nat, i: nat, m: Message) returns (k: nat)
    requires c.bearWeight > 0 && Inv(c, s) && b < |s| && i < |s[b].trace| && Carries(s[b].trace[i], m)
    ensures WroteAt(s, m, k)
  {
    assert EntryOk(c, b, SummaryOf(b, s[b].trace[..i]), s[b].trace[i]);
    if s[b].trace[i].Out? {
      k := i;
    } else {
      k := ReceivedWasSent(c, s, b, s[b].trace[i].event.from, i, m);
    }
  }

  lemma SentByAuthor(c: Config, s: System, a: nat, p: nat, m: Message)
    requires c.bearWeight > 0 && Inv(c, s) && a < |s| && m in Sends(a, s[a].trace, p)
    ensures Author(m) == a != p
    ensures m.Reply? ==> m.answered.pid == p
  {
    SentIsGood(c, a, s[a].trace, p, m);
  }

  // ---------- What a later state adds ----------

  ghost predicate Continues(s: System, s': System) {
    |s| == |s'| && forall p :: 0 <= p < |s| ==> s[p].trace <= s'[p].trace
  }

  lemma StepContinues(c: Config, s: System, step: Step)
    requires Supported(c) && Inv(c, s) && Enabled(c, s, step)
    ensures Continues(s, Next(c, s, step))
  {
    var actions := StepTraces(c, s, step);
    var tr := s[Actor(step)].trace;
    assert tr <= tr + [In(Raised(c, s, step))] + Outs(actions);
  }

  /** A message is sent once: what an old message was known to follow, it was known to follow before. */
  lemma KnownStays(c: Config, s: System, s': System, b: nat, m: Message, m': Message, k: nat)
    requires c.bearWeight > 0 && Inv(c, s') && Continues(s, s') && WroteAt(s, m', k) && KnownBefore(s', b, m, m')
    ensures KnownBefore(s, b, m, m')
  {
    var tr' := s'[b].trace;
    var i, j :| 0 <= i < j < |tr'| && Carries(tr'[i], m) && tr'[j].Out? && Carries(tr'[j], m');
    SentIsOwn(c, b, tr', j, m');
    assert s[b].trace[k] == tr'[k];
    SentAtOnce(c, b, tr', j, k, m');
    assert Carries(s[b].trace[i], m) && Carries(s[b].trace[j], m');
  }

  lemma SentIsOwn(c: Config, me: nat, tr: seq<Entry>, j: nat, m: Message)
    requires TraceOk(c, me, tr) && j < |tr| && tr[j].Out? && Carries(tr[j], m)
    ensures Author(m) == me
  {
    assert EntryOk(c, me, SummaryOf(me, tr[..j]), tr[j]);
  }

  lemma SentAtOnce(c: Config, me: nat, tr: seq<Entry>, j: nat, k: nat, m: Message)
    requires TraceOk(c, me, tr) && j < |tr| && k < |tr|
    requires tr[j].Out? && Carries(tr[j], m) && tr[k].Out? && Carries(tr[k], m)
    ensures j == k
  {
    if j < k {
      SentIsLater(c, me, tr, j, k, m, m);
    } else if k < j {
      SentIsLater(c, me, tr, k, j, m, m);
    }
  }

  ghost predicate Written(s: System, m: Message) {
    exists k: nat :: WroteAt(s, m, k)
  }

  /** What leads to a message that is already written was there already. */
  ghost predicate LinksKept(s: System, s': System) {
    forall m, m' :: Precedes(s', m, m') && Written(s, m') ==> Precedes(s, m, m') && Written(s, m)
  }

  /** The same for whole chains, link by link from their end. */
  lemma {:induction false} ChainStays(s: System, s': System, ms: seq<Message>, i: nat)
    requires LinksKept(s, s') && i < |ms| && CausalChain(s', ms) && Written(s, ms[i])
    ensures forall x: nat :: x < i ==> LinkAt(s, ms, x)
  {
    if i > 0 {
      assert LinkAt(s', ms, i - 1);
      ChainStays(s, s', ms, i - 1);
    }
  }

  lemma LinksAreKept(c: Config, s: System, s': System)
    requires c.bearWeight > 0 && Inv(c, s) && Inv(c, s') && Continues(s, s')
    ensures LinksKept(s, s')
  {
    forall m, m' | Precedes(s', m, m') && Written(s, m') ensures Precedes(s, m, m') && Written(s, m) {
      var k: nat :| WroteAt(s, m', k);
      var k' := LinkStays(c, s, s', m, m', k);
    }
  }

  lemma LinkStays(c: Config, s: System, s': System, m: Message, m': Message, k: nat) returns (k': nat)
    requires c.bearWeight > 0 && Inv(c, s) && Inv(c, s') && Continues(s, s') && WroteAt(s, m', k)
    requires Precedes(s', m, m')
    ensures Precedes(s, m, m') && WroteAt(s, m, k')
  {
    var b: nat :| KnownBefore(s', b, m, m');
    KnownStays(c, s, s', b, m, m', k);
    k' := KnownWasWritten(c, s, b, m, m');
  }

  lemma KnownWasWritten(c: Config, s: System, b: nat, m: Message, m': Message) returns (k: nat)
    requires c.bearWeight > 0 && Inv(c, s) && KnownBefore(s, b, m, m')
    ensures WroteAt(s, m, k)
  {
    var i :| 0 <= i < |s[b].trace| && Carries(s[b].trace[i], m);
    k := SeenWasWritten(c, s, b, i, m);
  }

  lemma SentIsWritten(c: Config, s: System, a: nat, p: nat, m: Message) returns (k: nat)
    requires c.bearWeight > 0 && Inv(c, s) && a < |s| && m in Sends(a, s[a].trace, p)
    ensures WroteAt(s, m, k)
  {
    SentIsLogged(a, s[a].trace, p, m);
    k :| 0 <= k < |s[a].trace| && s[a].trace[k].Out? && m in Posted(a, s[a].trace[k].action, p);
    SentIsOwn(c, a, s[a].trace, k, m);
  }

  /** What was written already was sent already. */
  lemma WrittenWasSent(c: Config, s: System, s': System, m: Message, k: nat, a: nat, p: nat)
    requires c.bearWeight > 0 && Inv(c, s') && Continues(s, s') && a < |s|
    requires WroteAt(s, m, k) && m in Sends(a, s'[a].trace, p)
    ensures m in Sends(a, s[a].trace, p)
  {
    SentByAuthor(c, s', a, p, m);
    WrittenIsSent(c, a, s[a].trace, s'[a].trace, p, m, k);
  }

  lemma WrittenIsSent(c: Config, me: nat, tr: seq<Entry>, tr': seq<Entry>, p: nat, m: Message, k: nat)
    requires TraceOk(c, me, tr') && tr <= tr' && m in Sends(me, tr', p)
    requires k < |tr| && tr[k].Out? && Carries(tr[k], m)
    ensures m in Sends(me, tr, p)
  {
    SentIsLogged(me, tr', p, m);
    var n :| 0 <= n < |tr'| && tr'[n].Out? && m in Posted(me, tr'[n].action, p);
    assert tr'[k] == tr[k] && Carries(tr'[n], m);
    SentAtOnce(c, me, tr', n, k, m);
    LoggedIsSent(me, tr, k, p, m);
  }

  // ---------- One step ----------

  /** The message about to be taken overtakes nothing that its sender knew. */
  ghost predicate InTurn(s: System, from: nat, to: nat) {
    && from < |s| && to < |s[from].out| && s[from].out[to] != []
    && forall a, k :: 0 <= a < |s| && to < |s[a].out| && 0 <= k < |s[a].out[to]|
                      ==> !KnownBefore(s, from, s[a].out[to][k], s[from].out[to][0])
  }

  lemma CausalKept(c: Config, s: System, step: Step)
    requires Supported(c) && Reachable(c, s) && Enabled(c, s, step) && CausalDelivery(s)
    requires step.Deliver? ==> InTurn(s, step.from, step.to)
    ensures CausalDelivery(Next(c, s, step))
  {
    forall p, n, b, m', a, m | ComesAfter(Next(c, s, step), p, n, b, m', a, m)
      ensures ReceivedBefore(Next(c, s, step), p, n, a, m)
    {
      ReceiptKept(c, s, step, p, n, b, m', a, m);
    }
  }

  lemma ReceiptKept(c: Config, s: System, step: Step, p: nat, n: nat, b: nat, m': Message, a: nat, m: Message)
    requires Supported(c) && Reachable(c, s) && Enabled(c, s, step) && CausalDelivery(s)
    requires step.Deliver? ==> InTurn(s, step.from, step.to)
    requires ComesAfter(Next(c, s, step), p, n, b, m', a, m)
    ensures ReceivedBefore(Next(c, s, step), p, n, a, m)
  {
    var s' := Next(c, s, step);
    var k := ReceiptWasWritten(c, s, step, p, n, b, m');
    StepKeepsInv(c, s, step);
    KnownStays(c, s, s', b, m, m', k);
    k := KnownWasWritten(c, s, b, m, m');
    WrittenWasSent(c, s, s', m, k, a, p);
    if n < |s[p].trace| {
      assert ComesAfter(s, p, n, b, m', a, m);
    }
    ReceiptStands(c, s, step, p, n, b, m', a, m);
  }

  /** A message taken in by now was written before the step. */
  lemma ReceiptWasWritten(c: Config, s: System, step: Step, p: nat, n: nat, b: nat, m': Message) returns (k: nat)
    requires Supported(c) && Reachable(c, s) && Enabled(c, s, step)
    requires p < |Next(c, s, step)| && n < |Next(c, s, step)[p].trace| && Next(c, s, step)[p].trace[n] == In(Net(b, m'))
    ensures Inv(c, s) && Continues(s, Next(c, s, step)) && p < |s| && WroteAt(s, m', k)
    ensures if n < |s[p].trace| then s[p].trace[n] == In(Net(b, m'))
            else step == Deliver(b, p) && n == |s[p].trace| && b < |s| && m' == s[b].out[p][0]
  {
    ReachableInv(c, s);
    StepContinues(c, s, step);
    var actions := StepTraces(c, s, step);
    if n < |s[p].trace| {
      var j := ReceivedWasSent(c, s, p, b, n, m');
      ReceivedIsSent(c, s, p, n, b, m');
    } else {
      NewReceipt(s, Next(c, s, step), p, n, b, m', Actor(step), Raised(c, s, step), actions);
      UnderWayIsSent(c, s, b, p, 0);
    }
    k := SentIsWritten(c, s, b, p, m');
  }

  /** A message already sent that was received in time is so after the step; and so is one that is no
      longer under way when the next is taken. */
  lemma ReceiptStands(c: Config, s: System, step: Step, p: nat, n: nat, b: nat, m': Message, a: nat, m: Message)
    requires Supported(c) && Inv(c, s) && Enabled(c, s, step) && Continues(s, Next(c, s, step))
    requires p < |s| && n < |Next(c, s, step)[p].trace| && a < |s| && m in Sends(a, s[a].trace, p)
    requires if n < |s[p].trace| then ReceivedBefore(s, p, n, a, m) else n == |s[p].trace| && m !in s[a].out[p]
    ensures ReceivedBefore(Next(c, s, step), p, n, a, m)
  {
    if n == |s[p].trace| {
      InEither(Recvs(s[p].trace, a), s[a].out[p], m);
      RecvIsLogged(s[p].trace, a, m);
    }
    var i :| 0 <= i < n && s[p].trace[i] == In(Net(a, m));
    assert Next(c, s, step)[p].trace[i] == In(Net(a, m));
  }

  lemma ReceivedIsSent(c: Config, s: System, p: nat, n: nat, b: nat, m: Message)
    requires c.bearWeight > 0 && Inv(c, s) && p < |s| && b < |s| && n < |s[p].trace| && s[p].trace[n] == In(Net(b, m))
    ensures m in Sends(b, s[b].trace, p)
  {
    RecvPosition(s[p].trace, n, b, m);
    InEither(Recvs(s[p].trace, b), s[b].out[p], m);
  }

  lemma NewReceipt(s: System, s': System, p: nat, n: nat, b: nat, m': Message, actor: nat, ev: Event, actions: seq<Action>)
    requires actor < |s| == |s'| && p < |s| && |s[p].trace| <= n < |s'[p].trace| && s'[p].trace[n] == In(Net(b, m'))
    requires s'[actor].trace == s[actor].trace + [In(ev)] + Outs(actions)
    requires forall q :: 0 <= q < |s| && q != actor ==> s'[q].trace == s[q].trace
    ensures p == actor && n == |s[p].trace| && ev == Net(b, m')
  {
  }

  // ---------- Chains of messages ----------

  /** At entry `n` process `p` takes in `m'` from `b`; a chain leads to it from `m`, which `a` sent to `p`. */
  ghost predicate ComesAfterChain(s: System, p: nat, n: nat, b: nat, m': Message, a: nat, m: Message) {
    && p < |s| && n < |s[p].trace| && s[p].trace[n] == In(Net(b, m'))
    && a < |s| && m in Sends(a, s[a].trace, p) && HappensBefore(s, m, m')
  }

  /** Causal delivery at large: a message is received only after every message to the same receiver that
      happens before it, whoever passed the word on. */
  ghost predicate ChainDelivery(s: System) {
    forall p, n, b, m', a, m :: ComesAfterChain(s, p, n, b, m', a, m) ==> ReceivedBefore(s, p, n, a, m)
  }

  lemma ChainIsCausal(s: System)
    requires ChainDelivery(s)
    ensures CausalDelivery(s)
  {
    forall p, n, b, m', a, m | ComesAfter(s, p, n, b, m', a, m) ensures ReceivedBefore(s, p, n, a, m) {
      assert Precedes(s, m, m');
      assert forall k: nat :: k + 1 < 2 ==> LinkAt(s, [m, m'], k);
      assert IsChain(s, [m, m'], m, m');
      assert ComesAfterChain(s, p, n, b, m', a, m);
    }
  }

  /** The message about to be taken overtakes nothing that happened before it. */
  ghost predicate InChainTurn(s: System, from: nat, to: nat) {
    && from < |s| && to < |s[from].out| && s[from].out[to] != []
    && forall a, k :: 0 <= a < |s| && to < |s[a].out| && 0 <= k < |s[a].out[to]|
                      ==> !HappensBefore(s, s[a].out[to][k], s[from].out[to][0])
  }

  lemma ChainKept(c: Config, s: System, step: Step)
    requires Supported(c) && Reachable(c, s) && Enabled(c, s, step) && ChainDelivery(s)
    requires step.Deliver? ==> InChainTurn(s, step.from, step.to)
    ensures ChainDelivery(Next(c, s, step))
  {
    forall p, n, b, m', a, m | ComesAfterChain(Next(c, s, step), p, n, b, m', a, m)
      ensures ReceivedBefore(Next(c, s, step), p, n, a, m)
    {
      ChainReceiptKept(c, s, step, p, n, b, m', a, m);
    }
  }

  lemma ChainReceiptKept(c: Config, s: System, step: Step, p: nat, n: nat, b: nat, m': Message, a: nat, m: Message)
    requires Supported(c) && Reachable(c, s) && Enabled(c, s, step) && ChainDelivery(s)
    requires step.Deliver? ==> InChainTurn(s, step.from, step.to)
    requires ComesAfterChain(Next(c, s, step), p, n, b, m', a, m)
    ensures ReceivedBefore(Next(c, s, step), p, n, a, m)
  {
    var s' := Next(c, s, step);
    var k := ReceiptWasWritten(c, s, step, p, n, b, m');
    StepKeepsInv(c, s, step);
    k := HappenedBefore(c, s, s', m, m', k);
    WrittenWasSent(c, s, s', m, k, a, p);
    if n < |s[p].trace| {
      assert ComesAfterChain(s, p, n, b, m', a, m);
    }
    ReceiptStands(c, s, step, p, n, b, m', a, m);
  }

  lemma HappenedBefore(c: Config, s: System, s': System, m: Message, m': Message, k: nat) returns (k': nat)
    requires c.bearWeight > 0 && Inv(c, s) && Inv(c, s') && Continues(s, s')
    requires WroteAt(s, m', k) && HappensBefore(s', m, m')
    ensures HappensBefore(s, m, m') && WroteAt(s, m, k')
  {
    var ms :| IsChain(s', ms, m, m');
    LinksAreKept(c, s, s');
    ChainStays(s, s', ms, |ms| - 1);
    assert LinkAt(s, ms, 0) && IsChain(s, ms, m, m');
    var b: nat :| KnownBefore(s, b, ms[0], ms[1]);
    k' := KnownWasWritten(c, s, b, ms[0], ms[1]);
  }

  /** Whatever grows along every link grows along a chain. */
  lemma {:induction false} ChainClimbs(s: System, ms: seq<Message>, i: nat, rank: Message -> nat)
    requires CausalChain(s, ms) && i < |ms|
    requires forall m, m' :: Precedes(s, m, m') ==> rank(m) <= rank(m')
    ensures rank(ms[0]) <= rank(ms[i])
  {
    if i > 0 {
      assert LinkAt(s, ms, i - 1);
      ChainClimbs(s, ms, i - 1, rank);
    }
  }

  lemma HappensBeforeIsEarlier(c: Config, s: System, m: Message, m': Message)
    requires Supported(c) && Reachable(c, s) && HappensBefore(s, m, m')
    ensures Stamp(m) < Stamp(m')
  {
    var ms :| IsChain(s, ms, m, m');
    TimestampsRespectCausality(c, s, ms);
  }
}
