/** The event loop and the system agree: one turn of one process, with whatever its transport hands
    over and whatever its local source decides, is a sequence of steps of the whole system. */
module Turns {
  import opened Types
  import opened Process
  import opened Network
  import opened NodeModel
  import Ordering

  /** The messages of a batch that come from one sender, in order. */
  function Portion(net: seq<Event>, from: nat): seq<Message> {
    if net == [] then [] else Portion(net[..|net| - 1], from) + Arrived(In(net[|net| - 1]), from)
  }

  /** What a poll may return: of every channel to `p` some oldest messages, interleaved at will. */
  ghost predicate Pollable(s: System, p: nat, net: seq<Event>) {
    && (forall i :: 0 <= i < |net| ==> net[i].Net? && net[i].from < |s|)
    && forall q :: 0 <= q < |s| ==> p < |s[q].out| && Portion(net, q) <= s[q].out[p]
  }

  function Deliveries(p: nat, net: seq<Event>): seq<Step>
    requires forall i :: 0 <= i < |net| ==> net[i].Net?
  {
    seq(|net|, i requires 0 <= i < |net| => Deliver(net[i].from, p))
  }

  /** Between the two states process `q` has only lost `taken` from its channel to `p`. */
  ghost predicate OnlyLost(s: System, q: nat, p: nat, taken: seq<Message>, s': System) {
    && q < |s| == |s'| && p < |s[q].out| == |s'[q].out|
    && s'[q] == s[q].(out := s'[q].out)
    && s[q].out[p] == taken + s'[q].out[p]
    && forall r :: 0 <= r < |s[q].out| && r != p ==> s'[q].out[r] == s[q].out[r]
  }

  /** `p` has handled the batch; the others have only lost the messages it took. */
  ghost predicate BatchTaken(c: Config, s: System, p: nat, net: seq<Event>, s': System)
    requires c.bearWeight > 0 && p < |s| && p < c.worldSize && |s[p].node.tracker| == c.worldSize
    requires Receivable(c, net)
  {
    && |s'| == |s| && s'[p] == ReactAll(c, p, s[p], net)
    && forall q :: 0 <= q < |s| && q != p ==> OnlyLost(s, q, p, Portion(net, q), s')
  }

  /** Nobody has a channel to itself to speak of. */
  lemma NothingToSelf(c: Config, s: System, p: nat)
    requires Supported(c) && Inv(c, s) && p < |s|
    ensures s[p].out[p] == []
  {
    if s[p].out[p] != [] {
      var j := Ordering.UnderWayWasSent(c, s, p, p, 0);
    }
  }

  lemma PollableFront(s: System, p: nat, net: seq<Event>)
    requires Pollable(s, p, net) && net != []
    ensures Pollable(s, p, net[..|net| - 1])
  {
    forall q | 0 <= q < |s| ensures Portion(net[..|net| - 1], q) <= s[q].out[p] {
      assert Portion(net[..|net| - 1], q) <= Portion(net, q);
    }
  }

  /** The last message of a batch is at the head of its channel once the others are taken. */
  lemma LastIsHead(c: Config, s: System, p: nat, net: seq<Event>, s': System)
    requires Supported(c) && Inv(c, s) && p < |s| && Pollable(s, p, net) && net != []
    requires Receivable(c, net[..|net| - 1]) && BatchTaken(c, s, p, net[..|net| - 1], s')
    ensures var ev := net[|net| - 1];
            ev.from != p && |s'[ev.from].out| > p && s'[ev.from].out[p] != [] && s'[ev.from].out[p][0] == ev.msg
  {
    var ev := net[|net| - 1];
    NothingToSelf(c, s, p);
    var front := Portion(net[..|net| - 1], ev.from);
    assert Portion(net, ev.from) == front + [ev.msg];
    assert s[ev.from].out[p][|front|] == ev.msg;
    assert ev.from != p;
    assert OnlyLost(s, ev.from, p, front, s');
  }

  lemma DeliveryEffect(c: Config, s: System, from: nat, p: nat)
    requires Supported(c) && Inv(c, s) && Enabled(c, s, Deliver(from, p)) && from != p
    ensures var ev := Net(from, s[from].out[p][0]);
            && Next(c, s, Deliver(from, p))[p] == React(c, p, s[p], ev)
            && forall q :: 0 <= q < |s| && q != p ==> OnlyLost(s, q, p, Arrived(In(ev), q), Next(c, s, Deliver(from, p)))
  {
    var step := Deliver(from, p);
    forall q: nat | q < |s| && q != p
      ensures OnlyLost(s, q, p, Arrived(In(Net(from, s[from].out[p][0])), q), Next(c, s, step))
    {
      TakenRow(c, s, step, q, p);
    }
  }

  lemma LostTwice(s: System, s1: System, s2: System, q: nat, p: nat, a: seq<Message>, b: seq<Message>)
    requires OnlyLost(s, q, p, a, s1) && OnlyLost(s1, q, p, b, s2)
    ensures OnlyLost(s, q, p, a + b, s2)
  {
    ConcatAssoc(a, b, s2[q].out[p]);
  }

  lemma OneMoreDelivery(c: Config, s: System, p: nat, net: seq<Event>, s1: System)
    requires Supported(c) && Inv(c, s) && Inv(c, s1) && p < |s| && Pollable(s, p, net) && net != []
    requires Receivable(c, net) && BatchTaken(c, s, p, net[..|net| - 1], s1)
    ensures Enabled(c, s1, Deliver(net[|net| - 1].from, p))
    ensures BatchTaken(c, s, p, net, Next(c, s1, Deliver(net[|net| - 1].from, p)))
  {
    var front, ev := net[..|net| - 1], net[|net| - 1];
    LastIsHead(c, s, p, net, s1);
    DeliveryEffect(c, s1, ev.from, p);
    var s2 := Next(c, s1, Deliver(ev.from, p));
    forall q: nat | q < |s| && q != p ensures OnlyLost(s, q, p, Portion(net, q), s2) {
      LostTwice(s, s1, s2, q, p, Portion(front, q), Arrived(In(ev), q));
    }
  }

  lemma RunSnoc(c: Config, steps: seq<Step>, step: Step)
    requires c.bearWeight > 0 && IsRun(c, steps) && Enabled(c, Run(c, steps), step)
    ensures IsRun(c, steps + [step]) && Run(c, steps + [step]) == Next(c, Run(c, steps), step)
  {
    assert (steps + [step])[..|steps|] == steps;
  }

  lemma ExtendBatch(c: Config, s: System, p: nat, net: seq<Event>, before: seq<Step>)
    requires Supported(c) && Inv(c, s) && IsRun(c, before) && p < |s| && Pollable(s, p, net) && net != []
    requires Receivable(c, net) && BatchTaken(c, s, p, net[..|net| - 1], Run(c, before))
    ensures var steps := before + [Deliver(net[|net| - 1].from, p)];
            IsRun(c, steps) && BatchTaken(c, s, p, net, Run(c, steps))
  {
    RunsKeepInv(c, before);
    OneMoreDelivery(c, s, p, net, Run(c, before));
    RunSnoc(c, before, Deliver(net[|net| - 1].from, p));
  }

  /** A batch is as many deliveries. */
  lemma {:induction false} BatchIsDeliveries(c: Config, past: seq<Step>, s: System, p: nat, net: seq<Event>)
    requires Supported(c) && IsRun(c, past) && s == Run(c, past) && Inv(c, s) && p < |s|
    requires Pollable(s, p, net) && Receivable(c, net)
    ensures IsRun(c, past + Deliveries(p, net))
    ensures BatchTaken(c, s, p, net, Run(c, past + Deliveries(p, net)))
    decreases |net|
  {
    if net == [] {
      assert past + Deliveries(p, net) == past;
      NothingTaken(c, s, p);
    } else {
      var front, last := net[..|net| - 1], net[|net| - 1];
      PollableFront(s, p, net);
      BatchIsDeliveries(c, past, s, p, front);
      ExtendBatch(c, s, p, net, past + Deliveries(p, front));
      DeliveriesSnoc(past, p, net);
    }
  }

  lemma DeliveriesSnoc(past: seq<Step>, p: nat, net: seq<Event>)
    requires net != [] && forall i :: 0 <= i < |net| ==> net[i].Net?
    ensures past + Deliveries(p, net[..|net| - 1]) + [Deliver(net[|net| - 1].from, p)] == past + Deliveries(p, net)
  {
  }

  lemma NothingTaken(c: Config, s: System, p: nat)
    requires c.bearWeight > 0 && Shaped(c, s) && p < |s|
    ensures BatchTaken(c, s, p, [], s)
  {
    forall q: nat | q < |s| && q != p ensures OnlyLost(s, q, p, Portion([], q), s) {
      assert Portion([], q) == [];
      assert s[q].out[p] == [] + s[q].out[p];
    }
  }

  /** The step, if any, by which the local source adds to the turn. */
  function LocalSteps(p: nat, l: LocalState, coin: bool, expired: bool): seq<Step> {
    if MayWant(l) && coin then [Want(p)]
    else if MayRelease(l) && expired then [Release(p)]
    else []
  }

  /** Process `q` is where it was, apart from the messages taken out of its channels. */
  predicate Untouched(s: System, q: nat, s': System) {
    q < |s| && q < |s'| && s'[q] == s[q].(out := s'[q].out)
  }

  lemma LocalStepEffect(c: Config, s: System, p: nat, coin: bool, expired: bool, step: Step)
    requires Supported(c) && Inv(c, s) && p < |s| && LocalSteps(p, s[p].local, coin, expired) == [step]
    ensures Enabled(c, s, step) && Actor(step) == p
    ensures Next(c, s, step) == s[p := PollLocal(c, p, s[p], coin, expired)]
  {
    assert step == LocalSteps(p, s[p].local, coin, expired)[0];
  }

  lemma LocalTurn(c: Config, steps: seq<Step>, s: System, p: nat, coin: bool, expired: bool)
    requires Supported(c) && IsRun(c, steps) && s == Run(c, steps) && Inv(c, s) && p < |s|
    ensures var own := LocalSteps(p, s[p].local, coin, expired);
            IsRun(c, steps + own) && Run(c, steps + own) == s[p := PollLocal(c, p, s[p], coin, expired)]
  {
    var own := LocalSteps(p, s[p].local, coin, expired);
    if own == [] {
      assert steps + own == steps;
      assert s[p := s[p]] == s;
    } else {
      assert own == [own[0]];
      LocalStepEffect(c, s, p, coin, expired, own[0]);
      RunSnoc(c, steps, own[0]);
    }
  }

  /** `p` has gone through one turn of its loop, and nobody else has done anything. */
  ghost predicate TurnDone(c: Config, s: System, p: nat, net: seq<Event>, coin: bool, expired: bool, s': System)
    requires c.bearWeight > 0 && p < |s| && p < c.worldSize && |s[p].node.tracker| == c.worldSize
    requires Receivable(c, net)
  {
    && |s'| == |s| && s'[p] == PollLocal(c, p, ReactAll(c, p, s[p], net), coin, expired)
    && forall q :: 0 <= q < |s| && q != p ==> Untouched(s, q, s')
  }

  lemma PollEndsTurn(c: Config, s: System, p: nat, net: seq<Event>, coin: bool, expired: bool, s1: System)
    requires c.bearWeight > 0 && p < |s| == c.worldSize && |s[p].node.tracker| == c.worldSize && Receivable(c, net)
    requires BatchTaken(c, s, p, net, s1)
    ensures |s1[p].node.tracker| == c.worldSize
    ensures TurnDone(c, s, p, net, coin, expired, s1[p := PollLocal(c, p, s1[p], coin, expired)])
  {
    var s2 := s1[p := PollLocal(c, p, s1[p], coin, expired)];
    forall q: nat | q < |s| && q != p ensures Untouched(s, q, s2) {
      assert OnlyLost(s, q, p, Portion(net, q), s1);
      assert s2[q] == s1[q];
    }
  }

  /** One turn of the loop at `p` is a run: the deliveries of its batch, then its local step. */
  lemma TurnIsRun(c: Config, past: seq<Step>, s: System, p: nat, net: seq<Event>, coin: bool, expired: bool)
      returns (turn: seq<Step>)
    requires Supported(c) && IsRun(c, past) && s == Run(c, past) && p < |s| && Pollable(s, p, net)
    ensures Inv(c, s) && Receivable(c, net)
    ensures forall i :: 0 <= i < |turn| ==> Actor(turn[i]) == p
    ensures IsRun(c, past + turn) && TurnDone(c, s, p, net, coin, expired, Run(c, past + turn))
  {
    RunsKeepInv(c, past);
    BatchIsDeliveries(c, past, s, p, net);
    turn := FinishTurn(c, past, Deliveries(p, net), s, Run(c, past + Deliveries(p, net)), p, net, coin, expired);
  }

  lemma FinishTurn(c: Config, past: seq<Step>, batch: seq<Step>, s: System, s1: System, p: nat, net: seq<Event>,
                   coin: bool, expired: bool) returns (turn: seq<Step>)
    requires Supported(c) && Shaped(c, s) && p < |s| && Receivable(c, net)
    requires IsRun(c, past + batch) && s1 == Run(c, past + batch) && BatchTaken(c, s, p, net, s1)
    requires forall i :: 0 <= i < |batch| ==> Actor(batch[i]) == p
    ensures forall i :: 0 <= i < |turn| ==> Actor(turn[i]) == p
    ensures IsRun(c, past + turn) && TurnDone(c, s, p, net, coin, expired, Run(c, past + turn))
  {
    var own := AddLocalTurn(c, past + batch, s, s1, p, net, coin, expired);
    turn := batch + own;
    Regroup(past, batch, own);
  }

  lemma Regroup(past: seq<Step>, batch: seq<Step>, own: seq<Step>)
    ensures past + (batch + own) == past + batch + own
  {
  }

  lemma AddLocalTurn(c: Config, steps: seq<Step>, s: System, s1: System, p: nat, net: seq<Event>,
                     coin: bool, expired: bool) returns (own: seq<Step>)
    requires Supported(c) && Shaped(c, s) && p < |s| && Receivable(c, net)
    requires IsRun(c, steps) && s1 == Run(c, steps) && BatchTaken(c, s, p, net, s1)
    ensures forall i :: 0 <= i < |own| ==> Actor(own[i]) == p
    ensures IsRun(c, steps + own) && TurnDone(c, s, p, net, coin, expired, Run(c, steps + own))
  {
    RunsKeepInv(c, steps);
    LocalTurn(c, steps, s1, p, coin, expired);
    PollEndsTurn(c, s, p, net, coin, expired, s1);
    own := LocalSteps(p, s1[p].local, coin, expired);
  }

  // ---------- The order of a turn ----------

  /** The events a process has handled, in order. */
  function Inputs(tr: seq<Entry>): seq<Event> {
    if tr == [] then []
    else Inputs(tr[..|tr| - 1]) + (if tr[|tr| - 1].In? then [tr[|tr| - 1].event] else [])
  }

  lemma {:induction false} InputsOfOuts(tr: seq<Entry>, actions: seq<Action>)
    ensures Inputs(tr + Outs(actions)) == Inputs(tr)
  {
    if actions == [] {
      assert tr + Outs(actions) == tr;
    } else {
      var front := actions[..|actions| - 1];
      assert (tr + Outs(actions))[..|tr + Outs(actions)| - 1] == tr + Outs(front);
      InputsOfOuts(tr, front);
    }
  }

  lemma InputsOfReaction(c: Config, me: nat, pr: Proc, ev: Event)
    requires Handles(c, me, pr.node, ev)
    ensures Inputs(React(c, me, pr, ev).trace) == Inputs(pr.trace) + [ev]
  {
    InputsOfOuts(pr.trace + [In(ev)], NodeStep(c, me, pr.node, ev).1);
    assert (pr.trace + [In(ev)])[..|pr.trace|] == pr.trace;
  }

  lemma AppendLast(a: seq<Event>, b: seq<Event>)
    requires b != []
    ensures a + b == a + b[..|b| - 1] + [b[|b| - 1]]
  {
  }

  lemma {:induction false} InputsOfBatch(c: Config, me: nat, pr: Proc, net: seq<Event>)
    requires c.bearWeight > 0 && me < c.worldSize && |pr.node.tracker| == c.worldSize && Receivable(c, net)
    ensures Inputs(ReactAll(c, me, pr, net).trace) == Inputs(pr.trace) + net
  {
    if net != [] {
      var n := |net| - 1;
      var before := ReactAll(c, me, pr, net[..n]);
      InputsOfBatch(c, me, pr, net[..n]);
      InputsOfReaction(c, me, before, net[n]);
      assert ReactAll(c, me, pr, net) == React(c, me, before, net[n]);
      AppendLast(Inputs(pr.trace), net);
    }
  }

  /** A turn handles every message received, once and in the order received, and only then at most one
      local event: a want if the source is armed and no party was entered last, a release if one was. */
  lemma TurnInOrder(c: Config, me: nat, pr: Proc, net: seq<Event>, coin: bool, expired: bool)
    requires c.bearWeight > 0 && me < c.worldSize && |pr.node.tracker| == c.worldSize && Receivable(c, net)
    ensures var l := ReactAll(c, me, pr, net).local;
            Inputs(PollLocal(c, me, ReactAll(c, me, pr, net), coin, expired).trace)
            == Inputs(pr.trace) + net
               + (if l.shouldWant && l.notified == ExitedParty && coin then [Local(WantParty)]
                  else if l.notified == EnteredParty && expired then [Local(ReleaseParty)]
                  else [])
  {
    InputsOfBatch(c, me, pr, net);
    var after := ReactAll(c, me, pr, net);
    if MayWant(after.local) && coin {
      InputsOfReaction(c, me, after.(local := after.local.(shouldWant := false)), Local(WantParty));
    } else if MayRelease(after.local) && expired {
      InputsOfReaction(c, me, after, Local(ReleaseParty));
    }
  }
}
