/** The wire under the protocol: what processes send each other survives printing and parsing. */
module Carriage {
  import opened Types
  import opened Policy
  import opened Network
  import Parties
  import Traces
  import Histories
  import Ordering
  import Wire

  ghost function Below(n: nat): set<nat> {
    if n == 0 then {} else Below(n - 1) + {n - 1}
  }

  lemma {:induction false} BelowSize(n: nat)
    ensures |Below(n)| == n && forall p: nat :: p in Below(n) <==> p < n
  {
    if n > 0 {
      BelowSize(n - 1);
    }
  }

  lemma {:induction false} ElemsSize(s: seq<nat>)
    requires NoDup(s)
    ensures |Elems(s)| == |s|
  {
    if s != [] {
      var n := |s| - 1;
      ElemsSize(s[..n]);
      assert s == s[..n] + [s[n]];
      assert Elems(s) == Elems(s[..n]) + {s[n]};
      assert s[n] !in s[..n];
    }
  }

  lemma SubsetIsSmaller(a: set<nat>, b: set<nat>)
    requires a <= b
    ensures |a| <= |b|
  {
    assert b == a + (b - a);
  }

  /** A party is no larger than the world. */
  lemma PartyFits(c: Config, leader: nat, members: seq<nat>)
    requires Parties.ValidParty(c, leader, members)
    ensures |members| <= c.worldSize
  {
    ElemsSize(members);
    BelowSize(c.worldSize);
    SubsetIsSmaller(Elems(members), Below(c.worldSize));
  }

  lemma GoodIsCarried(c: Config, from: nat, to: nat, m: Message)
    requires Traces.GoodMessage(c, from, to, m) && from < c.worldSize && to < c.worldSize
    requires c.worldSize <= Wire.MAX_PARTICIPANTS && Stamp(m) < TWO_64
    ensures Wire.Typed(m) && Wire.Carried(m)
  {
    if m.PartyStart? {
      PartyFits(c, from, m.participants);
      assert forall p :: p in m.participants ==> p in Elems(m.participants);
    }
  }

  lemma StampIsPast(c: Config, s: System, p: nat, q: nat, k: nat)
    requires Supported(c) && Inv(c, s) && p < |s| && q < |s[p].out| && k < |s[p].out[q]|
    ensures Stamp(s[p].out[q][k]) <= s[p].node.clock
  {
    Ordering.UnderWayIsSent(c, s, p, q, k);
    Histories.SentBound(p, s[p].trace, q);
  }

  /** In a world of at most a million processes, and for as long as no clock can have wrapped, every
      message of a run comes off the wire as it was put on. */
  lemma RunsAreCarried(c: Config, steps: seq<Step>, p: nat, q: nat, k: nat)
    requires Supported(c) && IsRun(c, steps) && c.worldSize <= Wire.MAX_PARTICIPANTS && 3 * |steps| < TWO_64
    requires p < |Run(c, steps)| && q < |Run(c, steps)[p].out| && k < |Run(c, steps)[p].out[q]|
    ensures var m := Run(c, steps)[p].out[q][k]; Wire.Parse(Wire.Bytes(m)) == Some(m)
  {
    var s := Run(c, steps);
    RunsKeepInv(c, steps);
    Ordering.ClocksAreBounded(c, steps);
    StampIsPast(c, s, p, q, k);
    Ordering.ChannelPartiesAreValid(c, s, p, q, k);
    GoodIsCarried(c, p, q, s[p].out[q][k]);
    Wire.RoundTripExactly(s[p].out[q][k]);
  }
}
