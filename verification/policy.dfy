/** Choosing a party: an exact-weight group that contains the leader and at least one hare. */
module Policy {
  import opened Types

  datatype PartyMember = PartyMember(pid: nat, w: nat)

  // ---------- What a group is, for any subset of the candidates ----------

  /** Total weight of the candidates whose process id lies in `g`. */
  function SumIn(cs: seq<PartyMember>, g: set<nat>): nat {
    if cs == [] then 0
    else SumIn(cs[1..], g) + (if cs[0].pid in g then cs[0].w else 0)
  }

  /** How many candidates of weight `w` have their process id in `g`. */
  function CountIn(cs: seq<PartyMember>, g: set<nat>, w: nat): nat {
    if cs == [] then 0
    else CountIn(cs[1..], g, w) + (if cs[0].pid in g && cs[0].w == w then 1 else 0)
  }

  ghost predicate DistinctMembers(cs: seq<PartyMember>) {
    forall i, j :: 0 <= i < j < |cs| ==> cs[i].pid != cs[j].pid
  }

  ghost predicate TwoWeights(cs: seq<PartyMember>, bear: nat) {
    forall i :: 0 <= i < |cs| ==> cs[i].w == 1 || cs[i].w == bear
  }

  /** A subset of the candidates that may throw a party led by the first of them. */
  ghost predicate IsGroup(capacity: nat, cs: seq<PartyMember>, g: set<nat>) {
    && cs != []
    && cs[0].pid in g
    && (forall p :: p in g ==> exists i :: 0 <= i < |cs| && cs[i].pid == p)
    && SumIn(cs, g) == capacity
    && exists i :: 0 <= i < |cs| && cs[i].pid in g && cs[i].w == 1
  }

  ghost predicate NoDup(s: seq<nat>) {
    forall i, j :: 0 <= i < j < |s| ==> s[i] != s[j]
  }

  ghost function Elems(s: seq<nat>): set<nat> {
    set p | p in s
  }

  // ---------- The selection, as a function ----------

  /** Process ids of the candidates of one weight, in order. */
  function PidsOf(cs: seq<PartyMember>, w: nat): seq<nat> {
    if cs == [] then []
    else PidsOf(cs[..|cs| - 1], w) + (if cs[|cs| - 1].w == w then [cs[|cs| - 1].pid] else [])
  }

  /** A candidate that weighs as much as a hare is a hare, whatever a bear weighs. */
  function BearsOf(cs: seq<PartyMember>, hare: nat, bear: nat): seq<nat> {
    if hare == bear then [] else PidsOf(cs, bear)
  }

  /** What `b` bears weigh together. */
  function BearLoad(b: nat, bear: nat): nat {
    if b == 0 then 0 else BearLoad(b - 1, bear) + bear
  }

  predicate Feasible(b: nat, remaining: nat, bear: nat, placeForHare: nat, hares: nat) {
    BearLoad(b, bear) <= remaining && placeForHare <= remaining - BearLoad(b, bear) <= hares
  }

  /** The largest feasible number of bears that is at most `b`. */
  function MostBears(b: nat, remaining: nat, bear: nat, placeForHare: nat, hares: nat): Option<nat> {
    if Feasible(b, remaining, bear, placeForHare, hares) then Some(b)
    else if b == 0 then None
    else MostBears(b - 1, remaining, bear, placeForHare, hares)
  }

  function AddPid(chosen: seq<nat>, pid: nat): seq<nat> {
    if pid in chosen then chosen else chosen + [pid]
  }

  function AddAll(chosen: seq<nat>, pids: seq<nat>): seq<nat> {
    if pids == [] then chosen
    else AddPid(AddAll(chosen, pids[..|pids| - 1]), pids[|pids| - 1])
  }

  /** Adds fresh hares in order until `needed` of them are in; also says how many were added. */
  function FillHares(chosen: seq<nat>, hares: seq<nat>, needed: nat): (seq<nat>, nat)
    decreases |hares|
  {
    if hares == [] || needed == 0 then (chosen, 0)
    else if hares[0] in chosen then FillHares(chosen, hares[1..], needed)
    else
      var (all, k) := FillHares(chosen + [hares[0]], hares[1..], needed - 1);
      (all, k + 1)
  }

  function Assemble(leader: nat, bears: seq<nat>, hares: seq<nat>, needed: nat): (seq<nat>, nat) {
    FillHares(AddAll([leader], bears), hares, needed)
  }

  function FormGroup(capacity: nat, hare: nat, bear: nat, cs: seq<PartyMember>): Option<seq<nat>>
    requires bear > 0
  {
    if cs == [] || capacity == 0 || hare != 1 || cs[0].w > capacity then None
    else
      var remaining := capacity - cs[0].w;
      var leaderIsHare := cs[0].w == hare;
      var hares := PidsOf(cs[1..], hare);
      var bears := BearsOf(cs[1..], hare, bear);
      var place := if leaderIsHare then 0 else 1;
      if (!leaderIsHare && hares == []) || remaining < place then None
      else
        match MostBears(Min(remaining / bear, |bears|), remaining, bear, place, |hares|)
        case None => None
        case Some(b) =>
          if b > |bears| || BearLoad(b, bear) > remaining then None
          else
            var needed := remaining - BearLoad(b, bear);
            var (chosen, taken) := Assemble(cs[0].pid, bears[..b], hares, needed);
            if taken != needed || (!leaderIsHare && taken == 0) then None else Some(chosen)
  }

  function Min(a: nat, b: nat): nat {
    if a < b then a else b
  }

  // ---------- Counting members of a group ----------

  /** How many entries of `s` lie in `g`. */
  function Hits(s: seq<nat>, g: set<nat>): nat {
    if s == [] then 0
    else Hits(s[..|s| - 1], g) + (if s[|s| - 1] in g then 1 else 0)
  }

  lemma {:induction false} HitsBound(s: seq<nat>, g: set<nat>)
    ensures Hits(s, g) <= |s|
    ensures (forall p :: p in s ==> p in g) ==> Hits(s, g) == |s|
    ensures (forall p :: p in s ==> p !in g) ==> Hits(s, g) == 0
  {
    if s != [] {
      assert s == s[..|s| - 1] + [s[|s| - 1]];
      HitsBound(s[..|s| - 1], g);
    }
  }

  lemma {:induction false} HitsSplit(a: seq<nat>, b: seq<nat>, g: set<nat>)
    ensures Hits(a + b, g) == Hits(a, g) + Hits(b, g)
  {
    if b == [] {
      assert a + b == a;
    } else {
      HitsSplit(a, b[..|b| - 1], g);
      assert (a + b)[..|a + b| - 1] == a + b[..|b| - 1];
    }
  }

  lemma {:induction false} CountSnoc(cs: seq<PartyMember>, g: set<nat>, w: nat)
    requires cs != []
    ensures CountIn(cs, g, w)
         == CountIn(cs[..|cs| - 1], g, w) + (if cs[|cs| - 1].pid in g && cs[|cs| - 1].w == w then 1 else 0)
  {
    if |cs| > 1 {
      CountSnoc(cs[1..], g, w);
      assert cs[1..][..|cs| - 2] == cs[..|cs| - 1][1..];
    }
  }

  lemma {:induction false} CountIsHits(cs: seq<PartyMember>, g: set<nat>, w: nat)
    ensures CountIn(cs, g, w) == Hits(PidsOf(cs, w), g)
  {
    if cs != [] {
      var n := |cs| - 1;
      CountSnoc(cs, g, w);
      CountIsHits(cs[..n], g, w);
      var rest := PidsOf(cs[..n], w);
      if cs[n].w == w {
        assert PidsOf(cs, w) == rest + [cs[n].pid];
        assert (rest + [cs[n].pid])[..|rest|] == rest;
      } else {
        assert PidsOf(cs, w) == rest;
      }
    }
  }

  /** With two weights only, the weight of a subset is fixed by its two head counts. */
  lemma {:induction false} SumByCounts(cs: seq<PartyMember>, g: set<nat>, bear: nat)
    requires TwoWeights(cs, bear) && bear > 0
    ensures SumIn(cs, g) == CountIn(cs, g, 1) + (if bear == 1 then 0 else BearLoad(CountIn(cs, g, bear), bear))
  {
    if cs != [] {
      SumByCounts(cs[1..], g, bear);
    }
  }

  lemma {:induction false} PidsOfMembers(cs: seq<PartyMember>, w: nat)
    ensures forall p :: p in PidsOf(cs, w) <==> exists i :: 0 <= i < |cs| && cs[i].pid == p && cs[i].w == w
    ensures DistinctMembers(cs) ==> NoDup(PidsOf(cs, w))
  {
    if cs != [] {
      var n := |cs| - 1;
      PidsOfMembers(cs[..n], w);
      var rest := PidsOf(cs[..n], w);
      forall p | exists i :: 0 <= i < |cs| && cs[i].pid == p && cs[i].w == w ensures p in PidsOf(cs, w) {
        var i :| 0 <= i < |cs| && cs[i].pid == p && cs[i].w == w;
        if i < n {
          assert cs[..n][i] == cs[i];
        }
      }
      if DistinctMembers(cs) {
        forall k | 0 <= k < |rest| ensures rest[k] != cs[n].pid {
          assert rest[k] in rest;
        }
      }
    }
  }

  // ---------- The selection on distinct candidates ----------

  lemma {:induction false} MostBearsExact(b: nat, remaining: nat, bear: nat, place: nat, hares: nat)
    ensures match MostBears(b, remaining, bear, place, hares)
            case None => forall k: nat :: k <= b ==> !Feasible(k, remaining, bear, place, hares)
            case Some(m) =>
              && m <= b && Feasible(m, remaining, bear, place, hares)
              && forall k: nat :: m < k <= b ==> !Feasible(k, remaining, bear, place, hares)
  {
    if !Feasible(b, remaining, bear, place, hares) && b > 0 {
      MostBearsExact(b - 1, remaining, bear, place, hares);
    }
  }

  lemma {:induction false} AddAllFresh(chosen: seq<nat>, pids: seq<nat>)
    requires NoDup(chosen + pids)
    ensures AddAll(chosen, pids) == chosen + pids
  {
    if pids != [] {
      var n := |pids| - 1;
      assert forall k :: 0 <= k < |chosen + pids[..n]| ==> (chosen + pids[..n])[k] == (chosen + pids)[k];
      AddAllFresh(chosen, pids[..n]);
      assert (chosen + pids)[|chosen| + n] == pids[n];
      assert forall k :: 0 <= k < |chosen + pids[..n]| ==> (chosen + pids)[k] != (chosen + pids)[|chosen| + n];
      assert chosen + pids == chosen + pids[..n] + [pids[n]];
    } else {
      assert chosen + pids == chosen;
    }
  }

  lemma {:induction false} FillHaresFresh(chosen: seq<nat>, hares: seq<nat>, needed: nat)
    requires NoDup(chosen + hares) && needed <= |hares|
    ensures FillHares(chosen, hares, needed) == (chosen + hares[..needed], needed)
    decreases |hares|
  {
    if hares == [] || needed == 0 {
      assert chosen + hares[..needed] == chosen;
    } else {
      assert (chosen + hares)[|chosen|] == hares[0];
      assert forall k :: 0 <= k < |chosen| ==> (chosen + hares)[k] == chosen[k];
      assert chosen + [hares[0]] + hares[1..] == chosen + hares;
      FillHaresFresh(chosen + [hares[0]], hares[1..], needed - 1);
      assert chosen + [hares[0]] + hares[1..][..needed - 1] == chosen + hares[..needed];
    }
  }

  lemma NoDupParts(s: seq<nat>, t: seq<nat>, p: nat)
    requires NoDup(s) && NoDup(t)
    requires forall x :: x in s ==> x !in t && x != p
    requires p !in t
    ensures NoDup([p] + s + t)
  {
    var all := [p] + s + t;
    forall i, j | 0 <= i < j < |all| ensures all[i] != all[j] {
      if 1 <= i < 1 + |s| {
        assert all[i] == s[i - 1] && s[i - 1] in s;
      }
      if 1 <= j < 1 + |s| {
        assert all[j] == s[j - 1] && s[j - 1] in s;
      }
      if j >= 1 + |s| {
        assert all[j] == t[j - 1 - |s|] && t[j - 1 - |s|] in t;
      }
      if i >= 1 + |s| {
        assert all[i] == t[i - 1 - |s|];
      }
    }
  }

  /** The parts the selection works with. */
  ghost predicate Parts(cs: seq<PartyMember>, bear: nat, hares: seq<nat>, bears: seq<nat>) {
    cs != [] && hares == PidsOf(cs[1..], 1) && bears == BearsOf(cs[1..], 1, bear)
  }

  lemma PartsDistinct(cs: seq<PartyMember>, bear: nat, hares: seq<nat>, bears: seq<nat>)
    requires Parts(cs, bear, hares, bears) && DistinctMembers(cs)
    ensures NoDup([cs[0].pid] + bears + hares)
    ensures forall p :: p in hares ==> p !in bears
    ensures cs[0].pid !in hares && cs[0].pid !in bears
  {
    PidsOfMembers(cs[1..], 1);
    PidsOfMembers(cs[1..], bear);
    forall x | x in bears ensures x !in hares && x != cs[0].pid {
      var i :| 0 <= i < |cs[1..]| && cs[1..][i].pid == x && cs[1..][i].w == bear;
      assert cs[i + 1].pid == x;
      assert forall j :: 0 <= j < |cs[1..]| ==> cs[1..][j] == cs[j + 1];
    }
    forall x | x in hares ensures x != cs[0].pid {
      var i :| 0 <= i < |cs[1..]| && cs[1..][i].pid == x && cs[1..][i].w == 1;
      assert cs[i + 1].pid == x;
    }
    NoDupParts(bears, hares, cs[0].pid);
  }

  /** Any subset with the leader: what its two head counts must satisfy. */
  lemma GroupCounts(bear: nat, cs: seq<PartyMember>, hares: seq<nat>, bears: seq<nat>, g: set<nat>)
    requires Parts(cs, bear, hares, bears) && bear > 0
    requires TwoWeights(cs, bear) && cs[0].pid in g
    ensures SumIn(cs, g) == cs[0].w + Hits(hares, g) + BearLoad(Hits(bears, g), bear)
    ensures Hits(hares, g) <= |hares| && Hits(bears, g) <= |bears|
    ensures bear != 1 ==> CountIn(cs, g, bear) == Hits(bears, g) + (if cs[0].w == bear then 1 else 0)
  {
    SumByCounts(cs[1..], g, bear);
    CountIsHits(cs[1..], g, 1);
    CountIsHits(cs[1..], g, bear);
    HitsBound(hares, g);
    HitsBound(bears, g);
  }

  /** A group proper has a hare, so either the leader is one or it hits the list of hares. */
  lemma GroupHasHare(capacity: nat, cs: seq<PartyMember>, g: set<nat>)
    requires IsGroup(capacity, cs, g) && cs[0].w != 1
    ensures Hits(PidsOf(cs[1..], 1), g) >= 1
  {
    var i :| 0 <= i < |cs| && cs[i].pid in g && cs[i].w == 1;
    CountIsHits(cs[1..], g, 1);
    assert cs[1..][i - 1] == cs[i];
    CountPositive(cs[1..], g, 1, i - 1);
  }

  lemma {:induction false} CountPositive(cs: seq<PartyMember>, g: set<nat>, w: nat, i: nat)
    requires i < |cs| && cs[i].pid in g && cs[i].w == w
    ensures CountIn(cs, g, w) >= 1
  {
    if i > 0 {
      CountPositive(cs[1..], g, w, i - 1);
    }
  }

  lemma AssembleDistinct(cs: seq<PartyMember>, bear: nat, hares: seq<nat>, bears: seq<nat>, b: nat, k: nat)
    requires Parts(cs, bear, hares, bears) && DistinctMembers(cs)
    requires b <= |bears| && k <= |hares|
    ensures Assemble(cs[0].pid, bears[..b], hares, k) == ([cs[0].pid] + bears[..b] + hares[..k], k)
    ensures NoDup([cs[0].pid] + bears[..b] + hares[..k])
  {
    PartsDistinct(cs, bear, hares, bears);
    var all := [cs[0].pid] + bears + hares;
    var front := [cs[0].pid] + bears[..b];
    assert forall i :: 0 <= i < |front| ==> front[i] == all[i];
    AddAllFresh([cs[0].pid], bears[..b]);
    assert forall i :: 0 <= i < |front| ==> (front + hares)[i] == all[i];
    assert forall i :: |front| <= i < |front + hares| ==> (front + hares)[i] == all[i + |bears| - b];
    FillHaresFresh(front, hares, k);
    assert forall i :: 0 <= i < |front + hares[..k]| ==> (front + hares[..k])[i] == (front + hares)[i];
  }

  /** `b` bears, topped up with hares, make a party of exactly the capacity. */
  ghost predicate Workable(capacity: nat, bear: nat, cs: seq<PartyMember>, b: nat) {
    && cs != [] && 0 < capacity && cs[0].w <= capacity
    && b <= |BearsOf(cs[1..], 1, bear)|
    && Feasible(b, capacity - cs[0].w, bear, if cs[0].w == 1 then 0 else 1, |PidsOf(cs[1..], 1)|)
  }

  /** In closed form: the leader, the first `b` bears, then the first hares up to the capacity. */
  ghost function ClosedForm(capacity: nat, bear: nat, cs: seq<PartyMember>, b: nat): seq<nat>
    requires Workable(capacity, bear, cs, b)
  {
    [cs[0].pid] + BearsOf(cs[1..], 1, bear)[..b] + PidsOf(cs[1..], 1)[..capacity - cs[0].w - BearLoad(b, bear)]
  }

  /** The countdown, started at what fits by weight, misses no feasible number of bears. */
  lemma CountdownExact(remaining: nat, bear: nat, place: nat, bears: nat, hares: nat)
    requires bear > 0
    ensures match MostBears(Min(remaining / bear, bears), remaining, bear, place, hares)
            case None => forall k: nat :: k <= bears ==> !Feasible(k, remaining, bear, place, hares)
            case Some(m) =>
              && m <= bears && Feasible(m, remaining, bear, place, hares)
              && forall k: nat :: m < k <= bears ==> !Feasible(k, remaining, bear, place, hares)
  {
    MostBearsExact(Min(remaining / bear, bears), remaining, bear, place, hares);
    forall k: nat | Min(remaining / bear, bears) < k <= bears ensures !Feasible(k, remaining, bear, place, hares) {
      LoadIsProduct(k, bear);
      QuotientBound(k, remaining, bear);
    }
  }

  lemma {:induction false} LoadIsProduct(b: nat, bear: nat)
    ensures BearLoad(b, bear) == b * bear
  {
    if b > 0 {
      LoadIsProduct(b - 1, bear);
    }
  }

  lemma QuotientBound(k: nat, n: nat, d: nat)
    requires d > 0 && k > n / d
    ensures k * d > n
  {
    assert k >= n / d + 1;
    assert k * d >= (n / d + 1) * d;
  }

  /** The selection, once the trivial refusals are out of the way. */
  lemma SelectionUnfolded(capacity: nat, bear: nat, cs: seq<PartyMember>, hares: seq<nat>, bears: seq<nat>,
                          remaining: nat, place: nat)
    requires bear > 0 && Parts(cs, bear, hares, bears) && DistinctMembers(cs)
    requires 0 < capacity && cs[0].w <= capacity && remaining == capacity - cs[0].w
    requires place == if cs[0].w == 1 then 0 else 1
    ensures match MostBears(Min(remaining / bear, |bears|), remaining, bear, place, |hares|)
            case None => FormGroup(capacity, 1, bear, cs).None?
            case Some(b) => b <= |bears| && Feasible(b, remaining, bear, place, |hares|) ==>
              FormGroup(capacity, 1, bear, cs) == Some([cs[0].pid] + bears[..b] + hares[..remaining - BearLoad(b, bear)])
  {
    match MostBears(Min(remaining / bear, |bears|), remaining, bear, place, |hares|)
    case None =>
    case Some(b) =>
      if b <= |bears| && Feasible(b, remaining, bear, place, |hares|) {
        AssembleDistinct(cs, bear, hares, bears, b, remaining - BearLoad(b, bear));
      }
  }

  /** The selection succeeds exactly when some number of bears is workable, and takes the largest. */
  lemma SelectionExact(capacity: nat, bear: nat, cs: seq<PartyMember>) returns (b: nat)
    requires DistinctMembers(cs) && bear > 0
    ensures FormGroup(capacity, 1, bear, cs).Some? <==> Workable(capacity, bear, cs, b)
    ensures forall k: nat :: Workable(capacity, bear, cs, k) ==> Workable(capacity, bear, cs, b) && k <= b
    ensures Workable(capacity, bear, cs, b) ==>
              && FormGroup(capacity, 1, bear, cs).value == ClosedForm(capacity, bear, cs, b)
              && NoDup(ClosedForm(capacity, bear, cs, b))
  {
    b := 0;
    if cs != [] && 0 < capacity && cs[0].w <= capacity {
      var hares, bears := PidsOf(cs[1..], 1), BearsOf(cs[1..], 1, bear);
      var remaining := capacity - cs[0].w;
      var place := if cs[0].w == 1 then 0 else 1;
      CountdownExact(remaining, bear, place, |bears|, |hares|);
      SelectionUnfolded(capacity, bear, cs, hares, bears, remaining, place);
      match MostBears(Min(remaining / bear, |bears|), remaining, bear, place, |hares|)
      case None =>
      case Some(m) =>
        AssembleDistinct(cs, bear, hares, bears, m, remaining - BearLoad(m, bear));
        b := m;
    }
  }

  /** The search fails exactly when no subset of the candidates is a group led by the first one. */
  lemma FailsExactly(capacity: nat, bear: nat, cs: seq<PartyMember>)
    requires DistinctMembers(cs) && TwoWeights(cs, bear) && bear > 0
    ensures FormGroup(capacity, 1, bear, cs).None? <==> !exists g :: IsGroup(capacity, cs, g)
  {
    var b := SelectionExact(capacity, bear, cs);
    if FormGroup(capacity, 1, bear, cs).Some? {
      FoundIsGroup(capacity, bear, cs);
    } else {
      forall g | IsGroup(capacity, cs, g) ensures false {
        GroupIsWorkable(capacity, bear, cs, g);
      }
    }
  }

  /** A group, whatever its members, certifies that its number of bears is workable. */
  lemma GroupIsWorkable(capacity: nat, bear: nat, cs: seq<PartyMember>, g: set<nat>)
    requires TwoWeights(cs, bear) && bear > 0
    requires IsGroup(capacity, cs, g)
    ensures Workable(capacity, bear, cs, Hits(BearsOf(cs[1..], 1, bear), g))
  {
    GroupCounts(bear, cs, PidsOf(cs[1..], 1), BearsOf(cs[1..], 1, bear), g);
    if cs[0].w != 1 {
      GroupHasHare(capacity, cs, g);
    }
  }

  /** The group found: no repetition, led by the first candidate, exact weight, a hare on board. */
  lemma FoundIsGroup(capacity: nat, bear: nat, cs: seq<PartyMember>)
    requires DistinctMembers(cs) && TwoWeights(cs, bear) && bear > 0
    requires FormGroup(capacity, 1, bear, cs).Some?
    ensures var group := FormGroup(capacity, 1, bear, cs).value;
            && NoDup(group) && group != [] && group[0] == cs[0].pid
            && IsGroup(capacity, cs, Elems(group))
  {
    var b := SelectionExact(capacity, bear, cs);
    var group := FormGroup(capacity, 1, bear, cs).value;
    ClosedFormSum(capacity, bear, cs, b);
    ClosedFormMembers(capacity, bear, cs, b);
  }

  lemma ClosedFormSum(capacity: nat, bear: nat, cs: seq<PartyMember>, b: nat)
    requires DistinctMembers(cs) && TwoWeights(cs, bear) && bear > 0
    requires Workable(capacity, bear, cs, b)
    ensures SumIn(cs, Elems(ClosedForm(capacity, bear, cs, b))) == capacity
  {
    var hares, bears := PidsOf(cs[1..], 1), BearsOf(cs[1..], 1, bear);
    var g := Elems(ClosedForm(capacity, bear, cs, b));
    ChosenHits(cs, bear, hares, bears, b, capacity - cs[0].w - BearLoad(b, bear));
    assert cs[0].pid in g by { assert ClosedForm(capacity, bear, cs, b)[0] == cs[0].pid; }
    GroupCounts(bear, cs, hares, bears, g);
  }

  lemma ClosedFormMembers(capacity: nat, bear: nat, cs: seq<PartyMember>, b: nat)
    requires bear > 0 && Workable(capacity, bear, cs, b)
    ensures var group := ClosedForm(capacity, bear, cs, b);
            && group[0] == cs[0].pid
            && (forall p :: p in group ==> exists i :: 0 <= i < |cs| && cs[i].pid == p)
            && exists i :: 0 <= i < |cs| && cs[i].pid in group && cs[i].w == 1
  {
    var hares, bears := PidsOf(cs[1..], 1), BearsOf(cs[1..], 1, bear);
    var group := ClosedForm(capacity, bear, cs, b);
    assert group[0] == cs[0].pid;
    forall p | p in group ensures exists i :: 0 <= i < |cs| && cs[i].pid == p {
      MemberIndex(cs, bear, hares, bears, p);
    }
    if cs[0].w != 1 {
      assert group[1 + b] == hares[0];
      HareIndex(cs, hares[0]);
    }
  }

  lemma HareIndex(cs: seq<PartyMember>, p: nat)
    requires cs != [] && p in PidsOf(cs[1..], 1)
    ensures exists i :: 0 <= i < |cs| && cs[i].pid == p && cs[i].w == 1
  {
    PidsOfMembers(cs[1..], 1);
    var i :| 0 <= i < |cs[1..]| && cs[1..][i].pid == p && cs[1..][i].w == 1;
    assert cs[i + 1].pid == p;
  }

  lemma MemberIndex(cs: seq<PartyMember>, bear: nat, hares: seq<nat>, bears: seq<nat>, p: nat)
    requires Parts(cs, bear, hares, bears)
    requires p == cs[0].pid || p in hares || p in bears
    ensures exists i :: 0 <= i < |cs| && cs[i].pid == p
  {
    PidsOfMembers(cs[1..], 1);
    PidsOfMembers(cs[1..], bear);
    if p != cs[0].pid {
      var i :| 0 <= i < |cs[1..]| && cs[1..][i].pid == p;
      assert cs[i + 1].pid == p;
    }
  }

  lemma PrefixHits(s: seq<nat>, k: nat, g: set<nat>)
    requires k <= |s|
    requires forall i :: 0 <= i < k ==> s[i] in g
    requires forall i :: k <= i < |s| ==> s[i] !in g
    ensures Hits(s, g) == k
  {
    assert s == s[..k] + s[k..];
    HitsSplit(s[..k], s[k..], g);
    HitsBound(s[..k], g);
    HitsBound(s[k..], g);
  }

  /** The chosen prefixes are all that the group has of either list. */
  lemma ChosenHits(cs: seq<PartyMember>, bear: nat, hares: seq<nat>, bears: seq<nat>, b: nat, k: nat)
    requires Parts(cs, bear, hares, bears) && DistinctMembers(cs)
    requires b <= |bears| && k <= |hares|
    ensures var g := Elems([cs[0].pid] + bears[..b] + hares[..k]);
            Hits(bears, g) == b && Hits(hares, g) == k
  {
    var group := [cs[0].pid] + bears[..b] + hares[..k];
    var g := Elems(group);
    PartsDistinct(cs, bear, hares, bears);
    PidsOfMembers(cs[1..], 1);
    PidsOfMembers(cs[1..], bear);
    assert DistinctMembers(cs[1..]);
    forall i | 0 <= i < |bears| ensures bears[i] in g <==> i < b {
      assert bears[i] in bears;
      if i < b { assert group[1 + i] == bears[i]; }
      assert forall x :: 0 <= x < k ==> hares[..k][x] in hares;
    }
    forall i | 0 <= i < |hares| ensures hares[i] in g <==> i < k {
      assert hares[i] in hares;
      if i < k { assert group[1 + b + i] == hares[i]; }
      assert forall x :: 0 <= x < b ==> bears[..b][x] in bears;
    }
    PrefixHits(bears, b, g);
    PrefixHits(hares, k, g);
  }

  /** No group with the same leader holds more bears than the one found. */
  lemma FoundHasMostBears(capacity: nat, bear: nat, cs: seq<PartyMember>, g: set<nat>)
    requires DistinctMembers(cs) && TwoWeights(cs, bear) && bear > 1
    requires FormGroup(capacity, 1, bear, cs).Some? && IsGroup(capacity, cs, g)
    ensures CountIn(cs, g, bear) <= CountIn(cs, Elems(FormGroup(capacity, 1, bear, cs).value), bear)
  {
    var b := SelectionExact(capacity, bear, cs);
    var group := FormGroup(capacity, 1, bear, cs).value;
    var hares, bears := PidsOf(cs[1..], 1), BearsOf(cs[1..], 1, bear);
    ChosenHits(cs, bear, hares, bears, b, capacity - cs[0].w - BearLoad(b, bear));
    assert group[0] == cs[0].pid;
    GroupCounts(bear, cs, hares, bears, Elems(group));
    GroupCounts(bear, cs, hares, bears, g);
    GroupIsWorkable(capacity, bear, cs, g);
  }

  /** Within each species the older candidates go first. */
  lemma FoundIsEarliest(capacity: nat, bear: nat, cs: seq<PartyMember>, i: nat, j: nat)
    requires DistinctMembers(cs) && bear > 0
    requires FormGroup(capacity, 1, bear, cs).Some?
    requires 1 <= i < j < |cs| && cs[i].w == cs[j].w
    requires cs[j].pid in FormGroup(capacity, 1, bear, cs).value
    ensures cs[i].pid in FormGroup(capacity, 1, bear, cs).value
  {
    var b := SelectionExact(capacity, bear, cs);
    var group := FormGroup(capacity, 1, bear, cs).value;
    var hares, bears := PidsOf(cs[1..], 1), BearsOf(cs[1..], 1, bear);
    var k := capacity - cs[0].w - BearLoad(b, bear);
    assert group == [cs[0].pid] + bears[..b] + hares[..k];
    if cs[j].pid in hares[..k] {
      SpeciesListed(cs, 1, j, k);
      ListedEarlier(cs[1..], 1, i - 1, j - 1, k);
    } else {
      assert cs[j].pid in bears[..b];
      SpeciesListed(cs, bear, j, b);
      ListedEarlier(cs[1..], bear, i - 1, j - 1, b);
    }
  }

  lemma SpeciesListed(cs: seq<PartyMember>, w: nat, j: nat, k: nat)
    requires DistinctMembers(cs) && 1 <= j < |cs| && k <= |PidsOf(cs[1..], w)|
    requires cs[j].pid in PidsOf(cs[1..], w)[..k]
    ensures cs[j].w == w
  {
    PidsOfMembers(cs[1..], w);
    assert cs[j].pid in PidsOf(cs[1..], w);
  }

  lemma ListedEarlier(cs: seq<PartyMember>, w: nat, i: nat, j: nat, k: nat)
    requires DistinctMembers(cs) && i < j < |cs| && cs[i].w == cs[j].w == w
    requires k <= |PidsOf(cs, w)| && cs[j].pid in PidsOf(cs, w)[..k]
    ensures cs[i].pid in PidsOf(cs, w)[..k]
  {
    PidsOfMembers(cs, w);
    assert cs[j].pid in PidsOf(cs, w);
    var y :| 0 <= y < k && PidsOf(cs, w)[..k][y] == cs[j].pid;
    assert PidsOf(cs, w)[y] == cs[j].pid;
    var x := ListedInOrder(cs, w, i, j);
    assert x < y;
    assert PidsOf(cs, w)[..k][x] == cs[i].pid;
  }

  /** Position of candidate `i` in the list of its weight: before every position of a later `j`. */
  lemma {:induction false} ListedInOrder(cs: seq<PartyMember>, w: nat, i: nat, j: nat) returns (x: nat)
    requires DistinctMembers(cs) && i < j < |cs| && cs[i].w == w && cs[j].w == w
    ensures x < |PidsOf(cs, w)| && PidsOf(cs, w)[x] == cs[i].pid
    ensures forall z :: 0 <= z < |PidsOf(cs, w)| && PidsOf(cs, w)[z] == cs[j].pid ==> x < z
  {
    var n := |cs| - 1;
    var rest := PidsOf(cs[..n], w);
    PidsOfMembers(cs[..n], w);
    if j == n {
      assert cs[..n][i] == cs[i];
      assert cs[i].pid in rest;
      x :| 0 <= x < |rest| && rest[x] == cs[i].pid;
      forall z | 0 <= z < |rest| ensures rest[z] != cs[n].pid {
        assert rest[z] in rest;
      }
    } else {
      x := ListedInOrder(cs[..n], w, i, j);
    }
  }

  // ---------- Any candidates at all ----------

  lemma {:induction false} AddAllAnyway(chosen: seq<nat>, pids: seq<nat>)
    requires NoDup(chosen)
    ensures NoDup(AddAll(chosen, pids)) && chosen <= AddAll(chosen, pids)
    ensures forall p :: p in AddAll(chosen, pids) ==> p in chosen || p in pids
  {
    if pids != [] {
      AddAllAnyway(chosen, pids[..|pids| - 1]);
    }
  }

  lemma {:induction false} FillHaresAnyway(chosen: seq<nat>, hares: seq<nat>, needed: nat)
    requires NoDup(chosen)
    ensures var (all, k) := FillHares(chosen, hares, needed);
            && NoDup(all) && chosen <= all && k <= needed && |all| == |chosen| + k
            && forall p :: p in all ==> p in chosen || p in hares
    decreases |hares|
  {
    if hares != [] && needed > 0 {
      if hares[0] in chosen {
        FillHaresAnyway(chosen, hares[1..], needed);
      } else {
        FillHaresAnyway(chosen + [hares[0]], hares[1..], needed - 1);
      }
    }
  }

  lemma CandidateOf(cs: seq<PartyMember>, hare: nat, bear: nat, p: nat)
    requires cs != []
    requires p == cs[0].pid || p in PidsOf(cs[1..], hare) || p in PidsOf(cs[1..], bear)
    ensures exists i :: 0 <= i < |cs| && cs[i].pid == p
  {
    PidsOfMembers(cs[1..], hare);
    PidsOfMembers(cs[1..], bear);
    if p != cs[0].pid {
      var i :| 0 <= i < |cs[1..]| && cs[1..][i].pid == p;
      assert cs[i + 1].pid == p;
    }
  }

  /** Whatever the candidates, even repeated ones and ones of other weights: whoever is chosen is a
      candidate, nobody is chosen twice, the first candidate leads, and a hare weighs one. */
  lemma FoundAnyway(capacity: nat, hare: nat, bear: nat, cs: seq<PartyMember>)
    requires bear > 0
    ensures match FormGroup(capacity, hare, bear, cs)
            case None => true
            case Some(g) =>
              && hare == 1 && cs != [] && g != [] && g[0] == cs[0].pid && NoDup(g)
              && forall p :: p in g ==> exists i :: 0 <= i < |cs| && cs[i].pid == p
  {
    if FormGroup(capacity, hare, bear, cs).Some? {
      var hares, bears := PidsOf(cs[1..], hare), BearsOf(cs[1..], hare, bear);
      var remaining := capacity - cs[0].w;
      var b := MostBears(Min(remaining / bear, |bears|), remaining, bear, if cs[0].w == hare then 0 else 1, |hares|).value;
      var needed := remaining - BearLoad(b, bear);
      AddAllAnyway([cs[0].pid], bears[..b]);
      FillHaresAnyway(AddAll([cs[0].pid], bears[..b]), hares, needed);
      var g := FormGroup(capacity, hare, bear, cs).value;
      forall p | p in g ensures exists i :: 0 <= i < |cs| && cs[i].pid == p {
        assert p == cs[0].pid || p in bears || p in hares;
        CandidateOf(cs, hare, bear, p);
      }
    }
  }

  lemma {:induction false} OnlyOfWeights(cs: seq<PartyMember>, v: nat, w: nat, u: nat)
    requires u == v || u == w
    ensures PidsOf(Weighing(cs, v, w), u) == PidsOf(cs, u)
  {
    if cs != [] {
      var rest := Weighing(cs[..|cs| - 1], v, w);
      OnlyOfWeights(cs[..|cs| - 1], v, w, u);
      assert (rest + [cs[|cs| - 1]])[..|rest|] == rest && rest + [] == rest;
    }
  }

  /** The candidates of either weight, in order. */
  function Weighing(cs: seq<PartyMember>, v: nat, w: nat): seq<PartyMember> {
    if cs == [] then []
    else Weighing(cs[..|cs| - 1], v, w) + (if cs[|cs| - 1].w == v || cs[|cs| - 1].w == w then [cs[|cs| - 1]] else [])
  }

  /** Candidates that are neither hares nor bears might as well not be there. */
  lemma StrangersDoNotMatter(capacity: nat, hare: nat, bear: nat, cs: seq<PartyMember>)
    requires bear > 0 && cs != []
    ensures FormGroup(capacity, hare, bear, cs) == FormGroup(capacity, hare, bear, [cs[0]] + Weighing(cs[1..], hare, bear))
  {
    var cs' := [cs[0]] + Weighing(cs[1..], hare, bear);
    assert cs'[1..] == Weighing(cs[1..], hare, bear);
    OnlyOfWeights(cs[1..], hare, bear, hare);
    OnlyOfWeights(cs[1..], hare, bear, bear);
  }

  // ---------- The class ----------

  class LamportPolicy {
    const capacity: nat
    const hareWeight: nat
    const bearWeight: nat

    constructor (maxCapacity: nat, hareWeight: nat, bearWeight: nat)
      ensures this.capacity == maxCapacity && this.hareWeight == hareWeight && this.bearWeight == bearWeight
    {
      this.capacity := maxCapacity;
      this.hareWeight := hareWeight;
      this.bearWeight := bearWeight;
    }

    /** Sorts everyone but the leader by species; other weights are passed over. */
    method Split(candidates: seq<PartyMember>) returns (hares: seq<nat>, bears: seq<nat>)
      requires candidates != []
      ensures hares == PidsOf(candidates[1..], hareWeight)
      ensures bears == BearsOf(candidates[1..], hareWeight, bearWeight)
    {
      hares, bears := [], [];
      var i := 1;
      while i < |candidates|
        invariant 1 <= i <= |candidates|
        invariant hares == PidsOf(candidates[1..i], hareWeight)
        invariant bears == BearsOf(candidates[1..i], hareWeight, bearWeight)
      {
        var c := candidates[i];
        assert candidates[1..i + 1][..i - 1] == candidates[1..i];
        if c.w == hareWeight {
          hares := hares + [c.pid];
        } else if c.w == bearWeight {
          bears := bears + [c.pid];
        }
        i := i + 1;
      }
      assert candidates[1..i] == candidates[1..];
    }

    /** Counts down from the most bears that fit until the rest can be filled with hares. */
    method CountBears(remaining: nat, placeForHare: nat, bears: nat, hares: nat) returns (best: Option<nat>)
      requires bearWeight > 0
      ensures best == MostBears(Min(remaining / bearWeight, bears), remaining, bearWeight, placeForHare, hares)
      ensures best.None? <==> forall k: nat :: k <= bears ==> !Feasible(k, remaining, bearWeight, placeForHare, hares)
    {
      CountdownExact(remaining, bearWeight, placeForHare, bears, hares);
      var bMax := Min(remaining / bearWeight, bears);
      ghost var expected := MostBears(bMax, remaining, bearWeight, placeForHare, hares);
      var b := bMax + 1;
      while b > 0
        invariant 0 <= b <= bMax + 1
        invariant expected == if b == 0 then None else MostBears(b - 1, remaining, bearWeight, placeForHare, hares)
      {
        b := b - 1;
        QuotientFits(b, remaining, bearWeight);
        LoadIsProduct(b, bearWeight);
        var rem2 := remaining - b * bearWeight;
        if rem2 < placeForHare { continue; }
        if rem2 > hares { continue; }
        return Some(b);
      }
      best := None;
    }

    /** Leader first, then the given bears, then hares until `needed` are in; never anyone twice. */
    method Gather(leader: nat, bears: seq<nat>, hares: seq<nat>, needed: nat) returns (chosen: seq<nat>, taken: nat)
      ensures (chosen, taken) == Assemble(leader, bears, hares, needed)
      ensures taken <= needed
    {
      chosen := AddPid([], leader);
      var k := 0;
      while k < |bears|
        invariant 0 <= k <= |bears|
        invariant chosen == AddAll([leader], bears[..k])
      {
        assert bears[..k + 1][..k] == bears[..k];
        chosen := AddPid(chosen, bears[k]);
        k := k + 1;
      }
      assert bears[..k] == bears;
      ghost var target := FillHares(chosen, hares, needed);
      taken := 0;
      var h := 0;
      assert hares[0..] == hares;
      while h < |hares| && taken != needed
        invariant 0 <= h <= |hares| && 0 <= taken <= needed
        invariant var (all, more) := FillHares(chosen, hares[h..], needed - taken);
                  target == (all, taken + more)
      {
        var pid := hares[h];
        assert hares[h..][0] == pid && hares[h..][1..] == hares[h + 1..];
        if pid !in chosen {
          chosen := chosen + [pid];
          taken := taken + 1;
        }
        h := h + 1;
      }
    }

    method TryFormGroup(candidates: seq<PartyMember>) returns (ok: bool, group: seq<nat>)
      requires bearWeight > 0
      ensures ok == FormGroup(capacity, hareWeight, bearWeight, candidates).Some?
      ensures group == if ok then FormGroup(capacity, hareWeight, bearWeight, candidates).value else []
    {
      if candidates == [] || capacity == 0 { return false, []; }
      if hareWeight != 1 { return false, []; }
      var leader := candidates[0];
      if leader.w > capacity { return false, []; }
      var remaining := capacity - leader.w;
      var hareInGroup := leader.w == hareWeight;

      var hares, bears := Split(candidates);
      if !hareInGroup && hares == [] { return false, []; }
      var placeForHare := if hareInGroup then 0 else 1;
      if remaining < placeForHare { return false, []; }

      var best := CountBears(remaining, placeForHare, |bears|, |hares|);
      if best.None? { return false, []; }
      var bearsToTake := best.value;
      CountdownExact(remaining, bearWeight, placeForHare, |bears|, |hares|);
      LoadIsProduct(bearsToTake, bearWeight);

      var haresNeeded := remaining - bearsToTake * bearWeight;
      var chosen, takenHares := Gather(leader.pid, bears[..bearsToTake], hares, haresNeeded);
      if takenHares != haresNeeded { return false, []; }
      if !hareInGroup && takenHares == 0 { return false, []; }
      return true, chosen;
    }
  }

  lemma QuotientFits(b: nat, n: nat, d: nat)
    requires d > 0 && b <= n / d
    ensures b * d <= n
  {
    MulMonotone(b, n / d, d);
  }

  lemma MulMonotone(a: nat, b: nat, d: nat)
    requires a <= b
    ensures a * d <= b * d
  {
  }
}
