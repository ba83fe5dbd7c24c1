/** What a party must satisfy, and that the policy on a queue decides exactly that. */
module Parties {
  import opened Types
  import opened Queue
  import opened Policy
  import opened NodeModel

  /** Weight of the processes below `n` that lie in `g`. */
  function WeightBelow(c: Config, g: set<nat>, n: nat): nat {
    if n == 0 then 0
    else WeightBelow(c, g, n - 1) + (if n - 1 in g then WeightOf(n - 1, c) else 0)
  }

  /** The rules of the meadow: exact capacity, and at least one hare. */
  ghost predicate ValidGroup(c: Config, g: set<nat>) {
    && (forall p :: p in g ==> p < c.worldSize)
    && WeightBelow(c, g, c.worldSize) == c.capacity
    && exists p :: p in g && SpeciesOf(p, c) == Hare
  }

  /** The participant list of a party: its leader first, nobody twice. */
  ghost predicate ValidParty(c: Config, leader: nat, members: seq<nat>) {
    && NoDup(members)
    && members != [] && members[0] == leader
    && ValidGroup(c, Elems(members))
  }

  ghost predicate PidsBelow(q: seq<Ticket>, n: nat) {
    forall t :: t in q ==> t.pid < n
  }

  lemma {:induction false} WeightWithout(c: Config, g: set<nat>, p: nat, n: nat)
    ensures WeightBelow(c, g, n) == WeightBelow(c, g - {p}, n) + (if p in g && p < n then WeightOf(p, c) else 0)
  {
    if n > 0 {
      WeightWithout(c, g, p, n - 1);
    }
  }

  lemma {:induction false} WeightOfNobody(c: Config, n: nat)
    ensures WeightBelow(c, {}, n) == 0
  {
    if n > 0 {
      WeightOfNobody(c, n - 1);
    }
  }

  lemma {:induction false} SumAvoids(cs: seq<PartyMember>, g: set<nat>, p: nat)
    requires forall i :: 0 <= i < |cs| ==> cs[i].pid != p
    ensures SumIn(cs, g) == SumIn(cs, g - {p})
  {
    if cs != [] {
      SumAvoids(cs[1..], g, p);
    }
  }

  /** Summing over the queue is summing over the processes. */
  lemma {:induction false} SumIsWeight(c: Config, q: seq<Ticket>, g: set<nat>, n: nat)
    requires DistinctPids(q) && PidsBelow(q, n)
    requires forall p :: p in g ==> HasPid(q, p)
    ensures SumIn(Candidates(c, q), g) == WeightBelow(c, g, n)
  {
    if q == [] {
      assert g == {};
      WeightOfNobody(c, n);
    } else {
      var p := q[0].pid;
      assert q[0] in q;
      assert Candidates(c, q)[1..] == Candidates(c, q[1..]);
      forall x | x in g - {p} ensures HasPid(q[1..], x) {
        RestPids(q, x);
      }
      forall t | t in q[1..] ensures t.pid < n {
        assert t in q;
      }
      SumIsWeight(c, q[1..], g - {p}, n);
      WeightWithout(c, g, p, n);
      SumAvoids(Candidates(c, q[1..]), g, p);
    }
  }

  lemma CandidatesShape(c: Config, q: seq<Ticket>)
    requires Supported(c) && WellFormed(q)
    ensures DistinctMembers(Candidates(c, q)) && TwoWeights(Candidates(c, q), c.bearWeight)
    ensures forall p :: HasPid(q, p) <==> exists i :: 0 <= i < |Candidates(c, q)| && Candidates(c, q)[i].pid == p
  {
    forall p | HasPid(q, p) ensures exists i :: 0 <= i < |Candidates(c, q)| && Candidates(c, q)[i].pid == p {
      var i :| 0 <= i < |q| && q[i].pid == p;
      assert Candidates(c, q)[i].pid == p;
    }
    forall p, i | 0 <= i < |Candidates(c, q)| && Candidates(c, q)[i].pid == p ensures HasPid(q, p) {
      assert q[i] in q;
    }
  }

  /** A valid group of queued processes with the head among them is one the policy considers. */
  lemma GroupsMatch(c: Config, q: seq<Ticket>, g: set<nat>)
    requires Supported(c) && WellFormed(q) && PidsBelow(q, c.worldSize) && q != []
    requires q[0].pid in g && forall p :: p in g ==> HasPid(q, p)
    ensures IsGroup(c.capacity, Candidates(c, q), g) <==> ValidGroup(c, g)
  {
    var cs := Candidates(c, q);
    CandidatesShape(c, q);
    SumIsWeight(c, q, g, c.worldSize);
    assert forall i :: 0 <= i < |cs| ==> (cs[i].w == 1 <==> SpeciesOf(cs[i].pid, c) == Hare);
    if ValidGroup(c, g) {
      var p :| p in g && SpeciesOf(p, c) == Hare;
      var i :| 0 <= i < |cs| && cs[i].pid == p;
      assert cs[i].pid in g && cs[i].w == 1;
    }
  }

  /** The party a head of the queue builds is valid, and drawn from its own queue. */
  lemma BuiltPartyIsValid(c: Config, q: seq<Ticket>)
    requires Supported(c) && WellFormed(q) && PidsBelow(q, c.worldSize) && q != []
    requires BuildParty(c, q).Some?
    ensures ValidParty(c, q[0].pid, BuildParty(c, q).value)
    ensures forall p :: p in BuildParty(c, q).value ==> HasPid(q, p)
  {
    var cs := Candidates(c, q);
    var members := BuildParty(c, q).value;
    CandidatesShape(c, q);
    FoundIsGroup(c.capacity, c.bearWeight, cs);
    assert members[0] in Elems(members);
    forall p | p in members ensures HasPid(q, p) {
      assert p in Elems(members);
    }
    GroupsMatch(c, q, Elems(members));
  }

  /** When the head builds nothing, nothing could have been built around it. */
  lemma NoPartyMeansNoGroup(c: Config, q: seq<Ticket>, g: set<nat>)
    requires Supported(c) && WellFormed(q) && PidsBelow(q, c.worldSize) && q != []
    requires BuildParty(c, q).None?
    requires q[0].pid in g && forall p :: p in g ==> HasPid(q, p)
    ensures !ValidGroup(c, g)
  {
    CandidatesShape(c, q);
    FailsExactly(c.capacity, c.bearWeight, Candidates(c, q));
    GroupsMatch(c, q, g);
  }

  // ---------- In heads, and by age ----------

  /** The members of one species: the hares are the processes numbered below `numHares`. */
  function Heads(c: Config, g: set<nat>, n: nat, hares: bool): set<nat> {
    set p: nat | p in g && p < n && (p < c.numHares <==> hares)
  }

  lemma HeadsStep(c: Config, g: set<nat>, n: nat, hares: bool)
    ensures |Heads(c, g, n + 1, hares)|
         == |Heads(c, g, n, hares)| + (if n in g && (n < c.numHares <==> hares) then 1 else 0)
  {
    var before := Heads(c, g, n, hares);
    if n in g && (n < c.numHares <==> hares) {
      assert Heads(c, g, n + 1, hares) == before + {n};
    } else {
      assert Heads(c, g, n + 1, hares) == before;
    }
  }

  function Load(h: nat, b: nat, hare: nat, bear: nat): nat {
    h * hare + b * bear
  }

  lemma LoadStep(h: nat, b: nat, hare: nat, bear: nat)
    ensures Load(h + 1, b, hare, bear) == Load(h, b, hare, bear) + hare
    ensures Load(h, b + 1, hare, bear) == Load(h, b, hare, bear) + bear
  {
  }

  lemma {:induction false} WeightInHeads(c: Config, g: set<nat>, n: nat)
    ensures WeightBelow(c, g, n) == Load(|Heads(c, g, n, true)|, |Heads(c, g, n, false)|, c.hareWeight, c.bearWeight)
  {
    if n > 0 {
      WeightInHeads(c, g, n - 1);
      HeadsStep(c, g, n - 1, true);
      HeadsStep(c, g, n - 1, false);
      LoadStep(|Heads(c, g, n - 1, true)|, |Heads(c, g, n - 1, false)|, c.hareWeight, c.bearWeight);
    }
  }

  /** The rules in heads: at least one hare, and the hares weigh one each and fill up with the bears to the
      capacity, exactly. */
  lemma ValidInHeads(c: Config, g: set<nat>)
    requires Supported(c) && forall p :: p in g ==> p < c.worldSize
    ensures var hares, bears := Heads(c, g, c.worldSize, true), Heads(c, g, c.worldSize, false);
            && hares + bears == g
            && (ValidGroup(c, g) <==> hares != {} && |hares| + |bears| * c.bearWeight == c.capacity)
  {
    WeightInHeads(c, g, c.worldSize);
    var hares := Heads(c, g, c.worldSize, true);
    if hares != {} {
      var p :| p in hares;
      assert p in g && SpeciesOf(p, c) == Hare;
    }
    if p :| p in g && SpeciesOf(p, c) == Hare {
      assert p in hares;
    }
  }

  /** The head of a queue is the owner of the request with the smallest timestamp; among equal timestamps
      the smallest process id decides. */
  lemma HeadIsOldest(me: nat, q: seq<Ticket>)
    requires WellFormed(q)
    ensures AmLeader(me, q) <==>
            exists t :: t in q && t.pid == me
                        && forall u :: u in q && u != t ==> t.ts < u.ts || (t.ts == u.ts && t.pid < u.pid)
  {
    if AmLeader(me, q) {
      assert q[0] in q;
    }
    if t :| t in q && t.pid == me && forall u :: u in q && u != t ==> t.ts < u.ts || (t.ts == u.ts && t.pid < u.pid) {
      assert q[0] in q;
    }
  }
}
