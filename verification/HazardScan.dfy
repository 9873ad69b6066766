/** The list of retired nodes and a pass over it, called by one thread at a time. */
module HazardScan {
  /** 0 is the null pointer. */
  type Ptr = nat

  /** Some scanned hazard slot publishes `x`. */
  ghost predicate Outstanding(slots: seq<Ptr>, start: nat, x: Ptr) {
    exists i :: start <= i < |slots| && slots[i] == x
  }

  /** The retired nodes of `list` that a slot protects, in list order. */
  ghost function Kept(slots: seq<Ptr>, start: nat, list: seq<Ptr>): seq<Ptr> {
    if |list| == 0 then []
    else (if Outstanding(slots, start, list[0]) then [list[0]] else []) + Kept(slots, start, list[1..])
  }

  /** The retired nodes of `list` that no slot protects, in list order. */
  ghost function Freed(slots: seq<Ptr>, start: nat, list: seq<Ptr>): seq<Ptr> {
    if |list| == 0 then []
    else (if Outstanding(slots, start, list[0]) then [] else [list[0]]) + Freed(slots, start, list[1..])
  }

  ghost function Reversed(s: seq<Ptr>): seq<Ptr> {
    if |s| == 0 then [] else Reversed(s[1..]) + [s[0]]
  }

  ghost predicate Distinct<T>(s: seq<T>) {
    forall i, j | 0 <= i < j < |s| :: s[i] != s[j]
  }

  /** A record of a retired node, a cell of the list of `node_to_reclaim`. */
  class DataToReclaim {
    const data: Ptr
    var next: DataToReclaim?

    constructor (data: Ptr)
      ensures this.data == data && next == null
    {
      this.data, next := data, null;
    }
  }

  /** `recs` are the cells linked by `next` from `h`. */
  ghost predicate Linked(h: DataToReclaim?, recs: seq<DataToReclaim>)
    reads recs
  {
    && h == (if |recs| > 0 then recs[0] else null)
    && (forall i, j | 0 <= i && j == i + 1 && j < |recs| :: recs[i].next == recs[j])
    && (|recs| > 0 ==> recs[|recs| - 1].next == null)
    && Distinct(recs)
  }

  /** The nodes that the records name, in list order. */
  ghost function NodesOf(recs: seq<DataToReclaim>): (nodes: seq<Ptr>)
    ensures |nodes| == |recs|
  {
    if |recs| == 0 then [] else [recs[0].data] + NodesOf(recs[1..])
  }

  class HazardDomain {
    const slots: array<Ptr>                // hazard_pointers
    const startCid: nat                    // start_cid
    var nodeToReclaim: DataToReclaim?      // node_to_reclaim
    var reclaimCnt: int                    // reclaim_cnt
    ghost var recs: seq<DataToReclaim>     // the records linked from node_to_reclaim
    ghost var deleted: seq<Ptr>            // every node deleted so far

    ghost predicate Valid()
      reads this, recs
    {
      Linked(nodeToReclaim, recs)
    }

    /** No call is between changing the list and counting the change. */
    ghost predicate Counted()
      reads this
    {
      reclaimCnt == |recs|
    }

    constructor (slots: array<Ptr>, startCid: nat)
      ensures this.slots == slots && this.startCid == startCid
      ensures Valid() && Counted() && recs == [] && deleted == []
    {
      this.slots, this.startCid := slots, startCid;
      nodeToReclaim, reclaimCnt, recs, deleted := null, 0, [], [];
    }

    method OutstandingHazardPointersFor(p: Ptr) returns (found: bool)
      ensures found <==> Outstanding(slots[..], startCid, p)
    {
      var i := startCid;
      while i < slots.Length
        invariant startCid <= i
        invariant forall k | startCid <= k < i && k < slots.Length :: slots[k] != p
      {
        if slots[i] == p {
          assert slots[..][i] == p;
          return true;
        }
        i := i + 1;
      }
      return false;
    }

    /** The exchange is weak: besides failing while `node.next` is not the head, it may fail for no reason. */
    method AddToReclaimList(node: DataToReclaim)
      requires Valid() && node !in recs
      modifies this`nodeToReclaim, this`recs, node`next
      ensures Valid() && recs == [node] + old(recs)
    {
      var spurious: nat := *;
      while node.next != nodeToReclaim || spurious > 0
        invariant nodeToReclaim == old(nodeToReclaim) && recs == old(recs) && Valid()
        decreases spurious, node.next != nodeToReclaim
      {
        if node.next == nodeToReclaim {
          spurious := spurious - 1;
        }
        node.next := nodeToReclaim;
      }
      nodeToReclaim := node;
      recs := [node] + recs;
    }

    method Retire(x: Ptr)
      requires Valid()
      modifies this`nodeToReclaim, this`recs, this`reclaimCnt
      ensures Valid() && NodesOf(recs) == [x] + old(NodesOf(recs))
      ensures |recs| > 0 && fresh(recs[0]) && recs[1..] == old(recs)
      ensures old(Counted()) ==> Counted()
    {
      var node := new DataToReclaim(x);
      AddToReclaimList(node);
      reclaimCnt := reclaimCnt + 1;
    }

    method DeleteNodesWithNoHazards()
      requires Valid()
      modifies this`nodeToReclaim, this`recs, this`reclaimCnt, this`deleted, recs
      ensures Valid() && forall r | r in recs :: r in old(recs)
      ensures NodesOf(recs) == Reversed(Kept(slots[..], startCid, old(NodesOf(recs))))
      ensures deleted == old(deleted) + Freed(slots[..], startCid, old(NodesOf(recs)))
      ensures old(Counted()) ==> Counted()
    {
      hide Kept, Freed, Reversed, Outstanding, NodesOf, Linked;
      var current := nodeToReclaim;
      ghost var todo := recs;
      nodeToReclaim, recs := null, [];
      ghost var sl, nodes := slots[..], NodesOf(todo);
      NothingLeft(sl, startCid);
      while current != null
        invariant sl == slots[..] && Valid() && Linked(current, todo)
        invariant forall r | r in todo :: r in old(recs) && r !in recs
        invariant forall r | r in recs :: r in old(recs)
        invariant Reversed(Kept(sl, startCid, NodesOf(todo))) + NodesOf(recs) == Reversed(Kept(sl, startCid, nodes))
        invariant deleted + Freed(sl, startCid, NodesOf(todo)) == old(deleted) + Freed(sl, startCid, nodes)
        invariant old(Counted()) ==> reclaimCnt == |recs| + |todo|
        decreases |todo|
      {
        var next := current.next;
        LinkedFront(current, todo);
        ghost var rest := todo[1..];
        PassFront(sl, startCid, current.data, NodesOf(rest));
        var found := OutstandingHazardPointersFor(current.data);
        if !found {
          deleted := deleted + [current.data];
          reclaimCnt := reclaimCnt - 1;
        } else {
          assert current in todo;
          ghost var back := recs;
          AddToReclaimList(current);
          NodesFront(current, back);
          ghost var kept := Reversed(Kept(sl, startCid, NodesOf(rest)));
          assert kept + ([current.data] + NodesOf(back)) == kept + [current.data] + NodesOf(back);
        }
        current, todo := next, rest;
      }
      LinkedEnd(todo);
    }
  }

  lemma NodesFront(h: DataToReclaim, recs: seq<DataToReclaim>)
    ensures NodesOf([h] + recs) == [h.data] + NodesOf(recs)
  {
    assert ([h] + recs)[1..] == recs;
  }

  lemma LinkedFront(h: DataToReclaim, recs: seq<DataToReclaim>)
    requires Linked(h, recs)
    ensures |recs| > 0 && h == recs[0] && h !in recs[1..] && Linked(h.next, recs[1..])
    ensures NodesOf(recs) == [h.data] + NodesOf(recs[1..])
  {
  }

  lemma LinkedEnd(recs: seq<DataToReclaim>)
    requires Linked(null, recs)
    ensures recs == []
  {
  }

  lemma NothingLeft(slots: seq<Ptr>, start: nat)
    ensures Reversed(Kept(slots, start, NodesOf([]))) == [] && Freed(slots, start, NodesOf([])) == []
    ensures Linked(null, []) && NodesOf([]) == []
  {
  }

  lemma PassFront(slots: seq<Ptr>, start: nat, x: Ptr, nodes: seq<Ptr>)
    ensures Outstanding(slots, start, x) ==>
              && Kept(slots, start, [x] + nodes) == [x] + Kept(slots, start, nodes)
              && Reversed(Kept(slots, start, [x] + nodes)) == Reversed(Kept(slots, start, nodes)) + [x]
              && Freed(slots, start, [x] + nodes) == Freed(slots, start, nodes)
    ensures !Outstanding(slots, start, x) ==>
              && Kept(slots, start, [x] + nodes) == Kept(slots, start, nodes)
              && Freed(slots, start, [x] + nodes) == [x] + Freed(slots, start, nodes)
  {
    assert ([x] + nodes)[1..] == nodes;
  }

  // ------------------------------------------------------------ what a pass achieves

  lemma MultisetCons(x: Ptr, xs: seq<Ptr>)
    ensures multiset([x] + xs) == multiset{x} + multiset(xs)
  {
  }

  /** A pass neither loses nor duplicates a retired node. */
  lemma {:induction false} PassPartitions(slots: seq<Ptr>, start: nat, list: seq<Ptr>)
    ensures multiset(Kept(slots, start, list)) + multiset(Freed(slots, start, list)) == multiset(list)
  {
    if |list| > 0 {
      hide *;
      var x, rest := list[0], list[1..];
      var kept, freed := Kept(slots, start, rest), Freed(slots, start, rest);
      PassPartitions(slots, start, rest);
      assert list == [x] + rest;
      PassFront(slots, start, x, rest);
      MultisetCons(x, rest);
      MultisetCons(x, kept);
      MultisetCons(x, freed);
    }
  }

  /** The deleted nodes are exactly the unprotected ones, the kept nodes exactly the protected ones. */
  lemma {:induction false} PassSelects(slots: seq<Ptr>, start: nat, list: seq<Ptr>, x: Ptr)
    ensures x in Kept(slots, start, list) <==> x in list && Outstanding(slots, start, x)
    ensures x in Freed(slots, start, list) <==> x in list && !Outstanding(slots, start, x)
  {
    if |list| > 0 {
      PassSelects(slots, start, list[1..], x);
      assert list == [list[0]] + list[1..];
    }
  }

  lemma {:induction false} ReversedSame(s: seq<Ptr>)
    ensures |Reversed(s)| == |s| && multiset(Reversed(s)) == multiset(s)
  {
    if |s| > 0 {
      ReversedSame(s[1..]);
      assert s == [s[0]] + s[1..];
    }
  }

  lemma {:induction false} KeptDistinct(slots: seq<Ptr>, start: nat, list: seq<Ptr>)
    requires Distinct(list)
    ensures Distinct(Kept(slots, start, list))
  {
    if |list| > 0 {
      KeptDistinct(slots, start, list[1..]);
      PassSelects(slots, start, list[1..], list[0]);
      assert list[0] !in list[1..];
    }
  }

  /** Distinct values that all occur in `t` number no more than `t` is long. */
  lemma {:induction false} PigeonHole(s: seq<Ptr>, t: seq<Ptr>)
    requires Distinct(s) && forall x | x in s :: x in t
    ensures |s| <= |t|
    decreases |t|
  {
    if |s| > 0 {
      var x := s[0];
      assert x in t;
      var k :| 0 <= k < |t| && t[k] == x;
      var t' := t[..k] + t[k + 1..];
      forall y | y in s[1..]
        ensures y in t'
      {
        assert y in t;
        var j :| 0 <= j < |t| && t[j] == y;
        assert y != x && j != k;
        assert if j < k then t'[j] == y else t'[j - 1] == y;
      }
      PigeonHole(s[1..], t');
    }
  }

  /** An undisturbed pass over distinct retired nodes leaves at most one record per scanned slot. */
  lemma PassBound(slots: seq<Ptr>, start: nat, list: seq<Ptr>)
    requires Distinct(list) && start <= |slots|
    ensures |Reversed(Kept(slots, start, list))| <= |slots| - start
  {
    var kept := Kept(slots, start, list);
    ReversedSame(kept);
    KeptDistinct(slots, start, list);
    forall x | x in kept
      ensures x in slots[start..]
    {
      PassSelects(slots, start, list, x);
      var i :| start <= i < |slots| && slots[i] == x;
      assert slots[start..][i - start] == x;
    }
    PigeonHole(kept, slots[start..]);
  }
}
