/** Two moments of one run: histories only grow, and nobody overtakes a queued process. */
module Progress {
  import opened Types
  import opened NodeModel
  import opened Process
  import opened Network
  import opened Histories
  import opened Ordering
  import Leaders
  import Repeated

  // ---------- Runs and their prefixes ----------

  /** Histories only grow. */
  lemma StepGrowsTrace(c: Config, s: System, step: Step, p: nat)
    requires Supported(c) && Inv(c, s) && Enabled(c, s, step) && p < |s|
    ensures |Next(c, s, step)| == |s| && s[p].trace <= Next(c, s, step)[p].trace
  {
    RaisedIsAdmissible(c, s, step);
    TakenRow(c, s, step, p, p);
    var a := Actor(step);
    var (node, actions) := NodeStep(c, a, s[a].node, Raised(c, s, step));
    assert s[a].trace <= s[a].trace + [In(Raised(c, s, step))] + Outs(actions);
  }

  lemma LastStepGrows(c: Config, steps: seq<Step>, p: nat)
    requires Supported(c) && IsRun(c, steps) && steps != [] && p < c.worldSize
    ensures |Run(c, steps[..|steps| - 1])| == |Run(c, steps)| == c.worldSize
    ensures Run(c, steps[..|steps| - 1])[p].trace <= Run(c, steps)[p].trace
  {
    RunsKeepInv(c, steps[..|steps| - 1]);
    StepGrowsTrace(c, Run(c, steps[..|steps| - 1]), steps[|steps| - 1], p);
  }

  lemma {:induction false} TracesGrow(c: Config, steps: seq<Step>, k: nat, p: nat)
    requires Supported(c) && IsRun(c, steps) && k <= |steps| && p < c.worldSize
    ensures IsRun(c, steps[..k])
    ensures |Run(c, steps[..k])| == |Run(c, steps)| == c.worldSize
    ensures Run(c, steps[..k])[p].trace <= Run(c, steps)[p].trace
    decreases |steps|
  {
    if k < |steps| {
      TracesGrow(c, steps[..|steps| - 1], k, p);
      assert steps[..|steps| - 1][..k] == steps[..k];
      LastStepGrows(c, steps, p);
    } else {
      assert steps[..k] == steps;
      RunsKeepInv(c, steps);
    }
  }

  // ---------- No overtaking ----------

  /** Queued on `t`, and every reply counted for it did answer it. */
  ghost predicate QueuedFairly(s: System, p: nat, t: Ticket) {
    && p < |s| && s[p].node.state.Queued? && s[p].node.pending == Some(t)
    && forall q: nat, i: nat :: RepliedAt(s[p].trace, q, i) ==> s[p].trace[i].event.msg.answered == t
  }

  /** Queued on `t`, having asked for nothing else so far. */
  ghost predicate QueuedFirst(s: System, p: nat, t: Ticket) {
    && p < |s| && s[p].node.state.Queued? && s[p].node.pending == Some(t)
    && forall i :: 0 <= i < |s[p].trace| && Asks(s[p].trace[i]) ==> AsksFor(s[p].trace[i], t)
  }

  /** A first request cannot be answered by anything else. */
  lemma FirstIsFair(c: Config, s: System, p: nat, t: Ticket)
    requires Supported(c) && Reachable(c, s) && QueuedFirst(s, p, t)
    ensures QueuedFairly(s, p, t)
  {
    ReachableInv(c, s);
    forall q: nat, i: nat | RepliedAt(s[p].trace, q, i) ensures s[p].trace[i].event.msg.answered == t {
      var m := s[p].trace[i].event.msg;
      var k := ReplyAnswersOwnRequest(c, s, p, q, i, m.senderTicket, m.answered);
    }
  }

  /** Nor can a later one, as long as no stale reply has come in. */
  lemma UnstaleIsFair(c: Config, s: System, p: nat, t: Ticket)
    requires Supported(c) && Reachable(c, s) && Repeated.NoStaleReply(s)
    requires p < |s| && s[p].node.state.Queued? && s[p].node.pending == Some(t)
    ensures QueuedFairly(s, p, t)
  {
    ReachableInv(c, s);
    var tr := s[p].trace;
    var k := PendingOpen(p, tr, t);
    assert tr[..|tr|] == tr;
    forall q: nat, i: nat | RepliedAt(tr, q, i) ensures tr[i].event.msg.answered == t {
      var m := tr[i].event.msg;
      Repeated.StillPending(c, s, p, |tr|, t, k, q, i, m.answered, m.senderTicket);
    }
  }

  /** Once a process is queued on a request that all replies counted did answer, nothing ever enters
      its queue ahead of that request: what is ahead at any later time was ahead already. */
  lemma NobodyGetsAhead(c: Config, steps: seq<Step>, k: nat, p: nat, t: Ticket, u: Ticket)
    requires Supported(c) && IsRun(c, steps) && k <= |steps| && IsRun(c, steps[..k])
    requires QueuedFairly(Run(c, steps[..k]), p, t)
    requires p < |Run(c, steps)| && u in Run(c, steps)[p].node.queue && Before(u, t)
    ensures u in Run(c, steps[..k])[p].node.queue
  {
    RunsKeepInv(c, steps[..k]);
    TracesGrow(c, steps, k, p);
    NoneAhead(c, Run(c, steps[..k]), Run(c, steps), p, t, u);
  }

  /** In every run, this goes for the first request of a process. */
  lemma NoOvertaking(c: Config, steps: seq<Step>, k: nat, p: nat, t: Ticket, u: Ticket)
    requires Supported(c) && IsRun(c, steps) && k <= |steps| && IsRun(c, steps[..k])
    requires QueuedFirst(Run(c, steps[..k]), p, t)
    requires p < |Run(c, steps)| && u in Run(c, steps)[p].node.queue && Before(u, t)
    ensures u in Run(c, steps[..k])[p].node.queue
  {
    FirstIsFair(c, Run(c, steps[..k]), p, t);
    NobodyGetsAhead(c, steps, k, p, t, u);
  }

  /** And for any request, if no stale reply has come in by then; later ones do no harm. */
  lemma NoOvertakingUnstale(c: Config, steps: seq<Step>, k: nat, p: nat, t: Ticket, u: Ticket)
    requires Supported(c) && IsRun(c, steps) && k <= |steps| && IsRun(c, steps[..k])
    requires Repeated.NoStaleReply(Run(c, steps[..k])) && p < |Run(c, steps[..k])|
    requires Run(c, steps[..k])[p].node.state.Queued? && Run(c, steps[..k])[p].node.pending == Some(t)
    requires p < |Run(c, steps)| && u in Run(c, steps)[p].node.queue && Before(u, t)
    ensures u in Run(c, steps[..k])[p].node.queue
  {
    UnstaleIsFair(c, Run(c, steps[..k]), p, t);
    NobodyGetsAhead(c, steps, k, p, t, u);
  }

  lemma NoneAhead(c: Config, s1: System, s: System, p: nat, t: Ticket, u: Ticket)
    requires Supported(c) && Inv(c, s1) && Reachable(c, s) && QueuedFairly(s1, p, t) && p < |s|
    requires s1[p].trace <= s[p].trace
    requires u in s[p].node.queue && Before(u, t)
    ensures u in s1[p].node.queue
  {
    ReachableInv(c, s);
    var tr1, tr := s1[p].trace, s[p].trace;
    QueueContent(p, tr, u);
    var i: nat :| HeldFrom(tr, u, i);
    if i < |tr1| {
      assert forall j :: 0 <= j < |tr1| ==> tr1[j] == tr[j];
      assert HeldFrom(tr1, u, i);
      QueueContent(p, tr1, u);
    } else {
      LateArrivalIsBehind(c, s1, s, p, t, u, i);
    }
  }

  /** The request of a fairly queued process, with the reply it got from `q`. */
  lemma QueuedHasReply(c: Config, s1: System, s: System, p: nat, t: Ticket, q: nat) returns (j: nat, r: Ticket)
    requires Supported(c) && Inv(c, s1) && Inv(c, s) && QueuedFairly(s1, p, t) && p < |s| && q < |s| && q != p
    requires s1[p].trace <= s[p].trace
    ensures j < |s1[p].trace| && s[p].trace[j] == In(Net(q, Reply(r, t)))
  {
    var tr1, tr := s1[p].trace, s[p].trace;
    RepliedSince(p, tr1, q);
    j :| RepliedAt(tr1, q, j);
    assert tr[j] == tr1[j];
    r := tr[j].event.msg.senderTicket;
  }

  lemma LateArrivalIsBehind(c: Config, s1: System, s: System, p: nat, t: Ticket, u: Ticket, i: nat)
    requires Supported(c) && Inv(c, s1) && Reachable(c, s) && QueuedFairly(s1, p, t) && p < |s|
    requires s1[p].trace <= s[p].trace
    requires |s1[p].trace| <= i < |s[p].trace| && Puts(s[p].trace[i]) == Some(u)
    ensures !Before(u, t)
  {
    ReachableInv(c, s);
    var tr := s[p].trace;
    var e := Leaders.PutWasIssued(c, s, p, i, u);
    if u.pid == p {
      var k := PendingOpen(p, s1[p].trace, t);
      assert tr[k] == s1[p].trace[k];
      SentIsLater(c, p, tr, k, i, Request(t), Request(u));
    } else if Before(u, t) {
      var j, r := QueuedHasReply(c, s1, s, p, t, u.pid);
      MatchingReply(c, s, p, u.pid, j, r, t, e, u);
      var j' :| 0 <= j' < j && tr[j'] == In(Net(u.pid, Request(u)));
      ReceivedInOrder(c, s, p, u.pid, j', i, Request(u), Request(u));
    }
  }
}
