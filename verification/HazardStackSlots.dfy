/** Exactly which slot assignments make the stack memory safe: every popper must publish in a slot the
    scan reads, unless it is the only popper.  The driver assigns tids nr_pairs .. 2 * nr_pairs - 1. */
module HazardStackSlots {
  import opened Wrappers
  import opened HazardStack
  import opened HazardStackRuns

  ghost predicate Reach(init: State, s: State) {
    exists r, who, acts :: IsRun(r, who, acts) && r[0] == init && r[|r| - 1] == s
  }

  /** No run from `init` ever lets a thread use a cell that is not live. */
  ghost predicate MemorySafe(init: State) {
    forall s, p | Reach(init, s) && 0 <= p < |s.threads| :: AccessOk(s, p)
  }

  lemma ReachSelf(init: State)
    requires Init(init)
    ensures Reach(init, init)
  {
    assert IsRun([init], [], []);
  }

  lemma ReachStep(init: State, s: State, s': State, p: nat, a: Action)
    requires Reach(init, s) && Step(s, s', p, a)
    ensures Reach(init, s')
  {
    hide Step, Init;
    var r, who, acts :| IsRun(r, who, acts) && r[0] == init && r[|r| - 1] == s;
    var r', who', acts' := r + [s'], who + [p], acts + [a];
    forall i | 0 <= i < |who'|
      ensures Step(r'[i], r'[i + 1], who'[i], acts'[i])
    {
      if i < |who| {
        assert Step(r[i], r[i + 1], who[i], acts[i]);
      }
    }
    assert IsRun(r', who', acts') && r'[0] == init && r'[|r'| - 1] == s';
  }

  // ------------------------------------------------------------ phases of a run

  ghost function Above(xs: set<Ptr>): (n: Ptr)
    ensures n != 0 && forall x | x in xs :: x < n
  {
    if xs == {} then 1
    else
      var x :| x in xs;
      var n := Above(xs - {x});
      assert forall y | y in xs :: y == x || y in xs - {x};
      if x < n then n else x + 1
  }

  ghost predicate SameConfig(s: State, s': State) {
    s'.start == s.start && s'.max == s.max && s'.limit == s.limit && s'.poppers == s.poppers
    && |s'.hazard| == |s.hazard| && |s'.threads| == |s.threads|
  }

  /** Only thread `p` has moved. */
  ghost predicate OthersStay(s: State, s': State, p: nat) {
    |s'.threads| == |s.threads| && forall q | 0 <= q < |s.threads| && q != p :: s'.threads[q] == s.threads[q]
  }

  lemma PushPhase(init: State, s: State, p: nat) returns (s': State, n: Ptr)
    requires Reach(init, s) && p < |s.threads| && s.threads[p].pc == Idle && s.head == 0
    ensures Reach(init, s') && SameConfig(s, s') && OthersStay(s, s', p) && s'.threads[p].pc == Idle
    ensures s'.hazard == s.hazard && s'.cnt == s.cnt && s'.reclaim == s.reclaim
    ensures n != 0 && n !in s.heap && s'.heap == s.heap[n := Node(Some(0), 0)] && s'.head == n
  {
    hide Reach;
    n := Above(s.heap.Keys);
    var s1 := s.(heap := s.heap[n := Node(Some(0), 0)], role := s.role[n := Fresh(p)],
                 threads := Goto(s, p, PushLoad(n, 0)));
    ReachStep(init, s, s1, p, NewNode(0, n, 0));
    var s2 := s1.(heap := s1.heap[n := Relink(s1.heap[n], s1.head)], threads := Goto(s1, p, PushCas(n, 0)));
    ReachStep(init, s1, s2, p, LoadIntoNext);
    s' := s2.(head := n, chain := [n] + s2.chain, role := s2.role[n := InStack], threads := Goto(s2, p, Idle));
    ReachStep(init, s2, s', p, PushCasOk);
  }

  /** `pop` up to the point where it is about to read the successor of the node it has validated. */
  lemma ValidatePhase(init: State, s: State, p: nat) returns (s': State)
    requires Reach(init, s) && p < |s.threads| && s.threads[p].pc == Idle
    requires p in s.poppers && p < |s.hazard| && s.head != 0
    ensures Reach(init, s') && SameConfig(s, s') && OthersStay(s, s', p) && s'.threads[p].pc == PopReadNext(s.head)
    ensures s'.hazard == s.hazard[p := s.head] && s'.cnt == s.cnt && s'.reclaim == s.reclaim
    ensures s'.heap == s.heap && s'.head == s.head
  {
    hide Reach;
    var s1 := s.(threads := s.threads[p := s.threads[p].(pc := PopPublish(s.head), claim := Pending)]);
    ReachStep(init, s, s1, p, PopStart);
    var s2 := s1.(hazard := s1.hazard[p := s.head], threads := Goto(s1, p, PopReload(s.head)));
    ReachStep(init, s1, s2, p, Publish);
    s' := s2.(threads := Goto(s2, p, PopReadNext(s.head)));
    ReachStep(init, s2, s', p, Reload);
  }

  /** The rest of `pop` up to and including the swap of the node's data. */
  lemma WinPhase(init: State, s: State, p: nat) returns (s': State)
    requires Reach(init, s) && p < |s.threads| && p < |s.hazard| && s.head != 0
    requires s.threads[p].pc == PopReadNext(s.head) && s.head in s.heap && s.heap[s.head] == Node(Some(0), 0)
    ensures Reach(init, s') && SameConfig(s, s') && OthersStay(s, s', p)
    ensures s'.threads[p].pc == RetireAlloc(s.head, Some(0))
    ensures s'.hazard == s.hazard[p := 0] && s'.cnt == s.cnt && s'.reclaim == s.reclaim
    ensures s'.heap == s.heap[s.head := Node(None, 0)] && s'.head == 0
  {
    hide Reach;
    var x := s.head;
    var s1 := s.(threads := Goto(s, p, PopCas(x, 0)));
    ReachStep(init, s, s1, p, ReadNext);
    var s2 := s1.(head := 0, chain := Tail(s1.chain), role := s1.role[x := Detached(p)],
                  threads := s1.threads[p := s1.threads[p].(pc := PopClear(x), claim := Took(DataAt(s1, x)))]);
    ReachStep(init, s1, s2, p, PopCasOk);
    var s3 := s2.(hazard := s2.hazard[p := 0], threads := Goto(s2, p, PopTake(x)));
    ReachStep(init, s2, s3, p, Clear);
    s' := s3.(heap := s3.heap[x := Node(None, 0)], threads := Goto(s3, p, RetireAlloc(x, Some(0))));
    ReachStep(init, s3, s', p, Take);
  }

  lemma RecordPhase(init: State, s: State, p: nat, x: Ptr) returns (s': State, rec: Ptr)
    requires Reach(init, s) && p < |s.threads| && s.threads[p].pc == RetireAlloc(x, Some(0))
    ensures Reach(init, s') && SameConfig(s, s') && OthersStay(s, s', p)
    ensures s'.threads[p].pc == RetireInsert(rec, Some(0))
    ensures s'.hazard == s.hazard && s'.cnt == s.cnt && s'.head == s.head && s'.reclaim == s.reclaim
    ensures rec != 0 && rec !in s.heap && s'.heap == s.heap[rec := Record(x, 0)]
  {
    hide Reach;
    rec := Above(s.heap.Keys);
    s' := s.(heap := s.heap[rec := Record(x, 0)], role := s.role[rec := Held(p)][x := Retired(rec)],
             threads := Goto(s, p, RetireInsert(rec, Some(0))));
    ReachStep(init, s, s', p, NewRecord(rec));
  }

  lemma InsertPhase(init: State, s: State, p: nat, x: Ptr, rec: Ptr) returns (s': State)
    requires Reach(init, s) && p < |s.threads| && s.threads[p].pc == RetireInsert(rec, Some(0))
    requires rec in s.heap && s.heap[rec] == Record(x, 0)
    ensures Reach(init, s') && SameConfig(s, s') && OthersStay(s, s', p) && s'.threads[p].pc == PopDecide(Some(0))
    ensures s'.hazard == s.hazard && s'.cnt == s.cnt + 1 && s'.head == s.head
    ensures s'.heap == s.heap[rec := Record(x, s.reclaim)] && s'.reclaim == rec
  {
    hide Reach;
    var s1 := s.(heap := s.heap[rec := Record(x, s.reclaim)]);
    ReachStep(init, s, s1, p, InsertFail);
    var s2 := s1.(reclaim := rec, list := [rec] + s1.list, role := s1.role[rec := Shared],
                  threads := Goto(s1, p, RetireCount(Some(0))));
    ReachStep(init, s1, s2, p, InsertOk);
    s' := s2.(cnt := s2.cnt + 1, threads := Goto(s2, p, PopDecide(Some(0))));
    ReachStep(init, s2, s', p, CountUp);
  }

  /** `Retire` of node `x`. */
  lemma RetirePhase(init: State, s: State, p: nat, x: Ptr) returns (s': State, rec: Ptr)
    requires Reach(init, s) && p < |s.threads| && s.threads[p].pc == RetireAlloc(x, Some(0))
    ensures Reach(init, s') && SameConfig(s, s') && OthersStay(s, s', p) && s'.threads[p].pc == PopDecide(Some(0))
    ensures s'.hazard == s.hazard && s'.cnt == s.cnt + 1 && s'.head == s.head
    ensures rec != 0 && rec !in s.heap && s'.heap == s.heap[rec := Record(x, s.reclaim)] && s'.reclaim == rec
  {
    hide Reach;
    var s1, r := RecordPhase(init, s, p, x);
    rec := r;
    s' := InsertPhase(init, s1, p, x, rec);
  }

  /** All threads are idle, no hazard is published and the stack is empty. */
  ghost predicate Calm(init: State, s: State) {
    && Reach(init, s) && SameConfig(init, s) && s.head == 0
    && (forall q | 0 <= q < |s.threads| :: s.threads[q].pc == Idle)
    && (forall i | 0 <= i < |s.hazard| :: s.hazard[i] == 0)
  }

  lemma ReturnPhase(init: State, s: State, p: nat) returns (s': State)
    requires Reach(init, s) && p < |s.threads| && s.threads[p].pc == PopDecide(Some(0)) && s.cnt < s.limit
    ensures Reach(init, s') && SameConfig(s, s') && OthersStay(s, s', p) && s'.threads[p].pc == Idle
    ensures s'.hazard == s.hazard && s'.cnt == s.cnt && s'.head == s.head
  {
    hide Reach;
    var s1 := s.(threads := Goto(s, p, PopReturn(Some(0))));
    ReachStep(init, s, s1, p, Decide);
    s' := s1.(threads := Goto(s1, p, Idle));
    ReachStep(init, s1, s', p, Return);
  }

  /** One push and one pop by `p` below the threshold add one reclaim record. */
  lemma CyclePhase(init: State, s: State, p: nat) returns (s': State)
    requires Calm(init, s) && p in s.poppers && p < |s.threads| && p < |s.hazard| && s.cnt + 1 < s.limit
    ensures Calm(init, s') && s'.cnt == s.cnt + 1
  {
    hide Reach;
    var s1, n := PushPhase(init, s, p);
    var s2 := ValidatePhase(init, s1, p);
    var s3 := WinPhase(init, s2, p);
    var s4, rec := RetirePhase(init, s3, p, n);
    s' := ReturnPhase(init, s4, p);
  }

  /** `p` alone can bring the counter to any value below the threshold. */
  lemma {:induction false} PreparePhase(init: State, p: nat, k: nat) returns (s: State)
    requires Init(init) && p in init.poppers && (k == 0 || k < init.limit)
    ensures Calm(init, s) && s.cnt == k
  {
    if k == 0 {
      s := init;
      ReachSelf(init);
    } else {
      var s0 := PreparePhase(init, p, k - 1);
      s := CyclePhase(init, s0, p);
    }
  }

  /** The scan of a record whose node no scanned slot protects reaches the deletion. */
  lemma {:induction false} ScanPhase(init: State, s: State, p: nat, rec: Ptr, next: Ptr, x: Ptr, i: nat)
    returns (s': State)
    requires Reach(init, s) && p < |s.threads| && i <= |s.hazard|
    requires s.threads[p].pc == ScanSlot(rec, next, x, i, Some(0))
    requires forall k | i <= k < |s.hazard| :: s.hazard[k] != x
    ensures Reach(init, s') && OthersStay(s, s', p) && s'.heap == s.heap
    ensures s'.threads[p].pc == ScanDeleteNode(rec, next, Some(0))
    decreases |s.hazard| - i
  {
    hide Reach;
    if i == |s.hazard| {
      s' := s.(threads := Goto(s, p, ScanDeleteNode(rec, next, Some(0))));
      ReachStep(init, s, s', p, CheckSlot);
    } else {
      var s1 := s.(threads := Goto(s, p, ScanSlot(rec, next, x, i + 1, Some(0))));
      ReachStep(init, s, s1, p, CheckSlot);
      s' := ScanPhase(init, s1, p, rec, next, x, i + 1);
    }
  }

  /** From the decision to reclaim up to the scan of the first record. */
  lemma FirstRecordPhase(init: State, s: State, p: nat, rec: Ptr, x: Ptr) returns (s': State)
    requires Reach(init, s) && p < |s.threads| && s.threads[p].pc == PopDecide(Some(0)) && s.cnt >= s.limit
    requires rec != 0 && s.reclaim == rec && IsRecord(s, rec) && s.heap[rec].node == x
    ensures Reach(init, s') && OthersStay(s, s', p) && s'.heap == s.heap && s'.hazard == s.hazard
    ensures s'.threads[p].pc == ScanSlot(rec, s.heap[rec].next, x, s.start, Some(0))
  {
    hide Reach;
    var s1 := s.(threads := Goto(s, p, ScanTake(Some(0))));
    ReachStep(init, s, s1, p, Decide);
    var s2 := s1.(reclaim := 0, list := [], role := MoveToRest(s1.role, s1.list, p),
                  threads := s1.threads[p := s1.threads[p].(pc := ScanNext(rec, Some(0)), rest := s1.list)]);
    ReachStep(init, s1, s2, p, TakeList);
    s' := s2.(role := s2.role[rec := Held(p)],
              threads := s2.threads[p := s2.threads[p].(rest := Tail(s2.threads[p].rest),
                pc := ScanSlot(rec, s.heap[rec].next, x, s2.start, Some(0)))]);
    ReachStep(init, s2, s', p, Advance);
  }

  /** From the decision to reclaim up to the deletion of `x`. */
  lemma ReclaimPhase(init: State, s: State, p: nat, rec: Ptr, x: Ptr) returns (s': State)
    requires Reach(init, s) && p < |s.threads| && s.threads[p].pc == PopDecide(Some(0)) && s.cnt >= s.limit
    requires rec != 0 && s.reclaim == rec && IsRecord(s, rec) && s.heap[rec].node == x && IsNode(s, x)
    requires s.start <= |s.hazard| && forall k | s.start <= k < |s.hazard| :: s.hazard[k] != x
    ensures Reach(init, s') && OthersStay(s, s', p) && x !in s'.heap
  {
    hide Reach;
    var s1 := FirstRecordPhase(init, s, p, rec, x);
    var next := s.heap[rec].next;
    var s2 := ScanPhase(init, s1, p, rec, next, x, s.start);
    s' := s2.(heap := s2.heap - {x}, role := s2.role[rec := Spent(p)] - {x},
              threads := Goto(s2, p, ScanDeleteRec(rec, next, Some(0))));
    ReachStep(init, s2, s', p, DeleteNode);
  }

  // ------------------------------------------------------------ the exact condition

  /** A popper `q` outside the scanned slots can be left about to read a node that `p` has deleted. */
  lemma UnscannedPopperFails(init: State, q: nat, p: nat) returns (s: State)
    requires Init(init) && q in init.poppers && p in init.poppers && p != q && q < init.start
    ensures Reach(init, s) && q < |s.threads| && !AccessOk(s, q)
  {
    hide Reach;
    var s0 := PreparePhase(init, p, if init.limit > 0 then init.limit - 1 else 0);
    var s1, n := PushPhase(init, s0, p);
    var s2 := ValidatePhase(init, s1, q);
    var s3 := ValidatePhase(init, s2, p);
    var s4 := WinPhase(init, s3, p);
    var s5, rec := RetirePhase(init, s4, p, n);
    s := ReclaimPhase(init, s5, p, rec, n);
  }

  lemma SafeSlotsSuffice(init: State, s: State, p: nat)
    requires SafeSlots(init) && Reach(init, s) && p < |s.threads|
    ensures AccessOk(s, p)
  {
    hide Step, Init, AccessOk;
    var r, who, acts :| IsRun(r, who, acts) && r[0] == init && r[|r| - 1] == s;
    MemorySafety(r, who, acts, |r| - 1, p);
  }

  /** The stack is memory safe in every run exactly if every popper publishes in a scanned slot or pops alone. */
  lemma MemorySafeIff(init: State)
    requires Init(init)
    ensures MemorySafe(init) <==> SafeSlots(init)
  {
    hide AccessOk, Reach;
    if SafeSlots(init) {
      forall s, p | Reach(init, s) && 0 <= p < |s.threads|
        ensures AccessOk(s, p)
      {
        SafeSlotsSuffice(init, s, p);
      }
    } else {
      var q :| q in init.poppers && q < init.start && init.poppers != {q};
      var p :| p in init.poppers && p != q;
      var s := UnscannedPopperFails(init, q, p);
    }
  }

  /** The driver's configuration: MAX_NR_THREADS slots, the scan starting at half of them, and poppers
      with tids `pairs` to `2 * pairs - 1`. */
  ghost predicate DriverConfig(init: State, pairs: nat) {
    && Init(init) && init.start == 14 && init.max == 28 && init.limit == 100
    && |init.threads| == 2 * pairs
    && (forall p | 0 <= p :: p in init.poppers <==> pairs <= p < 2 * pairs)
  }

  /** Of the numbers of thread pairs the slots have room for, only one pair and fourteen pairs are safe. */
  lemma DriverSafeIff(init: State, pairs: nat)
    requires DriverConfig(init, pairs) && 1 <= pairs <= 14
    ensures MemorySafe(init) <==> pairs == 1 || pairs == 14
  {
    MemorySafeIff(init);
    hide MemorySafe, Init;
    if pairs == 1 {
      assert init.poppers == {1};
    } else if pairs < 14 {
      assert pairs in init.poppers && pairs + 1 in init.poppers;
    }
  }
}
