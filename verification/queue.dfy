/** The replicated request queue: an ordered set of tickets with an index by process id. */
module Queue {
  import opened Types

  // ---------- The ordered set, as a strictly increasing sequence ----------

  ghost predicate Sorted(q: seq<Ticket>) {
    forall i, j :: 0 <= i < j < |q| ==> Before(q[i], q[j])
  }

  ghost predicate DistinctPids(q: seq<Ticket>) {
    forall i, j :: 0 <= i < j < |q| ==> q[i].pid != q[j].pid
  }

  ghost predicate WellFormed(q: seq<Ticket>) {
    Sorted(q) && DistinctPids(q)
  }

  ghost predicate HasPid(q: seq<Ticket>, pid: nat) {
    exists t :: t in q && t.pid == pid
  }

  /** Where the ordered set puts a ticket; an equal ticket is not inserted twice. */
  function SetInsert(q: seq<Ticket>, t: Ticket): seq<Ticket> {
    if q == [] then [t]
    else if t == q[0] then q
    else if Before(t, q[0]) then [t] + q
    else [q[0]] + SetInsert(q[1..], t)
  }

  function SetErase(q: seq<Ticket>, t: Ticket): seq<Ticket> {
    if q == [] then []
    else if q[0] == t then q[1..]
    else [q[0]] + SetErase(q[1..], t)
  }

  function RemovePid(q: seq<Ticket>, pid: nat): seq<Ticket> {
    if q == [] then []
    else if q[0].pid == pid then RemovePid(q[1..], pid)
    else [q[0]] + RemovePid(q[1..], pid)
  }

  function Enqueue(q: seq<Ticket>, t: Ticket): seq<Ticket> {
    SetInsert(RemovePid(q, t.pid), t)
  }

  function RemoveAll(q: seq<Ticket>, pids: seq<nat>): seq<Ticket> {
    if pids == [] then q
    else RemovePid(RemoveAll(q, pids[..|pids| - 1]), pids[|pids| - 1])
  }

  function PidSet(pids: seq<nat>): set<nat> {
    set p | p in pids
  }

  // ---------- Contents of the updated queues ----------

  lemma {:induction false} SetInsertContents(q: seq<Ticket>, t: Ticket)
    requires Sorted(q)
    ensures Sorted(SetInsert(q, t))
    ensures forall u :: u in SetInsert(q, t) <==> u == t || u in q
  {
    if q == [] || t == q[0] || Before(t, q[0]) {
    } else {
      SetInsertContents(q[1..], t);
      var rest := SetInsert(q[1..], t);
      assert q == [q[0]] + q[1..];
      forall i | 0 <= i < |rest| ensures Before(q[0], rest[i]) {
        assert rest[i] in rest;
      }
    }
  }

  lemma {:induction false} RemovePidContents(q: seq<Ticket>, pid: nat)
    requires WellFormed(q)
    ensures WellFormed(RemovePid(q, pid))
    ensures forall u :: u in RemovePid(q, pid) <==> u in q && u.pid != pid
  {
    if q != [] {
      RemovePidContents(q[1..], pid);
      var rest := RemovePid(q[1..], pid);
      assert q == [q[0]] + q[1..];
      forall i | 0 <= i < |rest| ensures Before(q[0], rest[i]) && q[0].pid != rest[i].pid {
        assert rest[i] in rest;
      }
    }
  }

  /** One ticket per process after an insertion, and it is the one just inserted. */
  lemma InsertContents(q: seq<Ticket>, t: Ticket)
    requires WellFormed(q)
    ensures WellFormed(Enqueue(q, t))
    ensures forall u :: u in Enqueue(q, t) <==> u == t || (u in q && u.pid != t.pid)
  {
    RemovePidContents(q, t.pid);
    SetInsertContents(RemovePid(q, t.pid), t);
    var r := Enqueue(q, t);
    forall i, j | 0 <= i < j < |r| ensures r[i].pid != r[j].pid {
      assert r[i] in r && r[j] in r && Before(r[i], r[j]);
      SamePidSameTicket(RemovePid(q, t.pid));
    }
  }

  /** The ordered set never refuses an insertion: with the older ticket of the process gone, the new
      one is not there, and the set grows by one. */
  lemma InsertionIsFresh(q: seq<Ticket>, t: Ticket)
    requires WellFormed(q)
    ensures t !in RemovePid(q, t.pid)
    ensures |Enqueue(q, t)| == |RemovePid(q, t.pid)| + 1
  {
    RemovePidContents(q, t.pid);
    SetInsertGrows(RemovePid(q, t.pid), t);
  }

  lemma {:induction false} SetInsertGrows(q: seq<Ticket>, t: Ticket)
    requires t !in q
    ensures |SetInsert(q, t)| == |q| + 1
  {
    if q != [] && !Before(t, q[0]) {
      SetInsertGrows(q[1..], t);
    }
  }

  lemma SamePidSameTicket(q: seq<Ticket>)
    requires DistinctPids(q)
    ensures forall u, v :: u in q && v in q && u.pid == v.pid ==> u == v
  {
    forall u, v | u in q && v in q && u.pid == v.pid ensures u == v {
      var i :| 0 <= i < |q| && q[i] == u;
      var j :| 0 <= j < |q| && q[j] == v;
    }
  }

  lemma {:induction false} RemoveAllContents(q: seq<Ticket>, pids: seq<nat>)
    requires WellFormed(q)
    ensures WellFormed(RemoveAll(q, pids))
    ensures forall u :: u in RemoveAll(q, pids) <==> u in q && u.pid !in pids
  {
    if pids != [] {
      var n := |pids| - 1;
      RemoveAllContents(q, pids[..n]);
      RemovePidContents(RemoveAll(q, pids[..n]), pids[n]);
      assert forall p :: p in pids <==> p in pids[..n] || p == pids[n] by {
        assert pids == pids[..n] + [pids[n]];
      }
    }
  }

  lemma TailElements(q: seq<Ticket>)
    requires Sorted(q) && q != []
    ensures forall t :: t in q[1..] <==> t in q && t != q[0]
  {
    assert q == [q[0]] + q[1..];
    assert forall i :: 0 < i < |q| ==> Before(q[0], q[i]);
  }

  /** Strictly sorted sequences are determined by their elements. */
  lemma {:induction false} SortedIsCanonical(a: seq<Ticket>, b: seq<Ticket>)
    requires Sorted(a) && Sorted(b)
    requires forall t :: t in a <==> t in b
    ensures a == b
  {
    assert |a| > 0 ==> a[0] in b;
    assert |b| > 0 ==> b[0] in a;
    if a != [] && b != [] {
      assert a[0] in b && b[0] in a;
      assert a[0] == b[0];
      TailElements(a);
      TailElements(b);
      SortedIsCanonical(a[1..], b[1..]);
    }
  }

  /** An insertion, or a removal, recognised by what it leaves behind. */
  lemma EnqueueIs(q: seq<Ticket>, t: Ticket, r: seq<Ticket>)
    requires WellFormed(q) && Sorted(r)
    requires forall u :: u in r <==> u == t || (u in q && u.pid != t.pid)
    ensures Enqueue(q, t) == r
  {
    InsertContents(q, t);
    SortedIsCanonical(Enqueue(q, t), r);
  }

  lemma RemoveAllIs(q: seq<Ticket>, pids: seq<nat>, r: seq<Ticket>)
    requires WellFormed(q) && Sorted(r)
    requires forall t :: t in r <==> t in q && t.pid !in pids
    ensures RemoveAll(q, pids) == r
  {
    RemoveAllContents(q, pids);
    SortedIsCanonical(RemoveAll(q, pids), r);
  }

  /** Removing a group twice is removing it once. */
  lemma RemoveAllTwice(q: seq<Ticket>, pids: seq<nat>)
    requires WellFormed(q)
    ensures RemoveAll(RemoveAll(q, pids), pids) == RemoveAll(q, pids)
  {
    RemoveAllContents(q, pids);
    RemoveAllContents(RemoveAll(q, pids), pids);
    SortedIsCanonical(RemoveAll(RemoveAll(q, pids), pids), RemoveAll(q, pids));
  }

  // ---------- The queue as a map from process id to its latest ticket ----------

  datatype Op = Put(ticket: Ticket) | Drop(pid: nat) | DropAll(pids: seq<nat>)

  /** The queue a history of operations leaves behind, starting from the empty one. */
  function QueueAfter(ops: seq<Op>): seq<Ticket> {
    if ops == [] then []
    else
      var q := QueueAfter(ops[..|ops| - 1]);
      match ops[|ops| - 1]
      case Put(t) => Enqueue(q, t)
      case Drop(pid) => RemovePid(q, pid)
      case DropAll(pids) => RemoveAll(q, pids)
  }

  /** The reference: a plain map that forgets everything but the latest ticket of a process. */
  function LatestAfter(ops: seq<Op>): map<nat, Ticket> {
    if ops == [] then map[]
    else
      var m := LatestAfter(ops[..|ops| - 1]);
      match ops[|ops| - 1]
      case Put(t) => m[t.pid := t]
      case Drop(pid) => m - {pid}
      case DropAll(pids) => m - PidSet(pids)
  }

  /** The ordered set holds exactly the tickets of the map, in strict (ts, pid) order. */
  ghost predicate Agree(q: seq<Ticket>, m: map<nat, Ticket>) {
    && WellFormed(q)
    && (forall t :: t in q <==> t.pid in m && m[t.pid] == t)
    && (forall p :: p in m ==> m[p].pid == p)
  }

  lemma {:induction false} QueueRefinesMap(ops: seq<Op>)
    ensures Agree(QueueAfter(ops), LatestAfter(ops))
    ensures QueueAfter(ops) != [] ==>
              forall p :: p in LatestAfter(ops) ==>
                            QueueAfter(ops)[0] == LatestAfter(ops)[p] || Before(QueueAfter(ops)[0], LatestAfter(ops)[p])
    ensures |QueueAfter(ops)| == |LatestAfter(ops)|
  {
    if ops != [] {
      var q := QueueAfter(ops[..|ops| - 1]);
      QueueRefinesMap(ops[..|ops| - 1]);
      match ops[|ops| - 1]
      case Put(t) => InsertContents(q, t);
      case Drop(pid) => RemovePidContents(q, pid);
      case DropAll(pids) => RemoveAllContents(q, pids);
    }
    var q, m := QueueAfter(ops), LatestAfter(ops);
    forall p | p in m ensures q != [] && (q[0] == m[p] || Before(q[0], m[p])) {
      assert m[p] in q;
    }
    SameSize(q, m);
  }

  lemma {:induction false} PidCount(q: seq<Ticket>, pids: set<nat>)
    requires DistinctPids(q)
    requires forall p :: p in pids <==> HasPid(q, p)
    ensures |q| == |pids|
  {
    if q == [] {
      assert pids == {};
    } else {
      var rest := pids - {q[0].pid};
      forall p ensures p in rest <==> HasPid(q[1..], p) {
        RestPids(q, p);
      }
      PidCount(q[1..], rest);
      assert HasPid(q, q[0].pid);
      assert pids == rest + {q[0].pid};
    }
  }

  lemma RestPids(q: seq<Ticket>, p: nat)
    requires DistinctPids(q) && q != []
    ensures HasPid(q[1..], p) <==> HasPid(q, p) && p != q[0].pid
  {
    assert q == [q[0]] + q[1..];
    SamePidSameTicket(q);
    if HasPid(q[1..], p) {
      var i :| 0 <= i < |q[1..]| && q[1..][i].pid == p;
      assert q[i + 1] in q;
    }
  }

  lemma SameSize(q: seq<Ticket>, m: map<nat, Ticket>)
    requires Agree(q, m)
    ensures |q| == |m|
  {
    forall p ensures p in m.Keys <==> HasPid(q, p) {
      assert p in m ==> m[p] in q;
    }
    PidCount(q, m.Keys);
  }

  // ---------- The class ----------

  /** `queue` is the ordered set, `pidToTicket` the index into it. */
  class RequestQueue {
    var queue: seq<Ticket>
    var pidToTicket: map<nat, Ticket>

    ghost predicate Valid()
      reads this
    {
      Agree(queue, pidToTicket)
    }

    constructor ()
      ensures Valid() && queue == []
    {
      queue := [];
      pidToTicket := map[];
    }

    method Insert(ticket: Ticket)
      requires Valid()
      modifies this
      ensures Valid()
      ensures queue == Enqueue(old(queue), ticket)
      ensures pidToTicket == old(pidToTicket)[ticket.pid := ticket]
    {
      InsertContents(queue, ticket);
      InsertionIsFresh(queue, ticket);
      if ticket.pid in pidToTicket {
        EraseIndexed(queue, pidToTicket, ticket.pid);
        queue := SetErase(queue, pidToTicket[ticket.pid]);
        pidToTicket := pidToTicket - {ticket.pid};
      } else {
        NothingToErase(queue, pidToTicket, ticket.pid);
      }
      queue := SetInsert(queue, ticket);
      pidToTicket := pidToTicket[ticket.pid := ticket];
    }

    method Remove(pid: nat)
      requires Valid()
      modifies this
      ensures Valid()
      ensures queue == RemovePid(old(queue), pid)
      ensures pidToTicket == old(pidToTicket) - {pid}
    {
      RemovePidContents(queue, pid);
      if pid !in pidToTicket {
        NothingToErase(queue, pidToTicket, pid);
        return;
      }
      EraseIndexed(queue, pidToTicket, pid);
      queue := SetErase(queue, pidToTicket[pid]);
      pidToTicket := pidToTicket - {pid};
    }

    method RemoveGroup(pids: seq<nat>)
      requires Valid()
      modifies this
      ensures Valid()
      ensures queue == RemoveAll(old(queue), pids)
      ensures pidToTicket == old(pidToTicket) - PidSet(pids)
    {
      var index := 0;
      while index < |pids|
        invariant 0 <= index <= |pids|
        invariant Valid()
        invariant queue == RemoveAll(old(queue), pids[..index])
        invariant pidToTicket == old(pidToTicket) - PidSet(pids[..index])
      {
        assert pids[..index + 1][..index] == pids[..index];
        DropOneMore(old(pidToTicket), pids, index);
        Remove(pids[index]);
        index := index + 1;
      }
      assert pids[..index] == pids;
    }

    method GetFirstPid() returns (first: Option<nat>)
      requires Valid()
      ensures first.None? <==> pidToTicket == map[]
      ensures first.Some? ==>
                && queue != [] && first.value == queue[0].pid
                && first.value in pidToTicket
                && forall p :: p in pidToTicket && p != first.value ==> Before(pidToTicket[first.value], pidToTicket[p])
    {
      if queue == [] {
        SameSize(queue, pidToTicket);
        return None;
      }
      assert queue[0] in queue;
      forall p | p in pidToTicket && p != queue[0].pid ensures Before(queue[0], pidToTicket[p]) {
        assert pidToTicket[p] in queue;
      }
      first := Some(queue[0].pid);
    }

    method Snapshot() returns (snapshot: seq<Ticket>)
      requires Valid()
      ensures snapshot == queue && Sorted(snapshot)
      ensures forall t :: t in snapshot <==> t.pid in pidToTicket && pidToTicket[t.pid] == t
    {
      snapshot := [];
      var i := 0;
      while i < |queue|
        invariant 0 <= i <= |queue|
        invariant snapshot == queue[..i]
      {
        snapshot := snapshot + [queue[i]];
        i := i + 1;
      }
    }
  }

  /** Erasing through the index is removing by process id. */
  lemma EraseIndexed(q: seq<Ticket>, m: map<nat, Ticket>, pid: nat)
    requires Agree(q, m) && pid in m
    ensures SetErase(q, m[pid]) == RemovePid(q, pid)
    ensures Agree(RemovePid(q, pid), m - {pid})
  {
    RemovePidContents(q, pid);
    assert m[pid] in q;
    SamePidSameTicket(q);
    EraseIsRemove(q, m[pid]);
  }

  lemma {:induction false} EraseIsRemove(q: seq<Ticket>, t: Ticket)
    requires DistinctPids(q)
    requires forall u :: u in q && u.pid == t.pid ==> u == t
    ensures SetErase(q, t) == RemovePid(q, t.pid)
  {
    if q != [] {
      assert q == [q[0]] + q[1..];
      if q[0] == t {
        RemoveAbsent(q[1..], t.pid);
      } else {
        EraseIsRemove(q[1..], t);
      }
    }
  }

  lemma {:induction false} RemoveAbsent(q: seq<Ticket>, pid: nat)
    requires forall i :: 0 <= i < |q| ==> q[i].pid != pid
    ensures RemovePid(q, pid) == q
  {
    if q != [] {
      RemoveAbsent(q[1..], pid);
    }
  }

  lemma DropOneMore(m: map<nat, Ticket>, pids: seq<nat>, k: nat)
    requires k < |pids|
    ensures m - PidSet(pids[..k]) - {pids[k]} == m - PidSet(pids[..k + 1])
  {
    assert pids[..k + 1] == pids[..k] + [pids[k]];
    assert PidSet(pids[..k + 1]) == PidSet(pids[..k]) + {pids[k]};
  }

  lemma NothingToErase(q: seq<Ticket>, m: map<nat, Ticket>, pid: nat)
    requires Agree(q, m) && pid !in m
    ensures RemovePid(q, pid) == q && m - {pid} == m
  {
    forall i | 0 <= i < |q| ensures q[i].pid != pid {
      assert q[i] in q;
    }
    RemoveAbsent(q, pid);
  }
}
