/** In all runs every address a thread is about to use is live. */
module HazardStackRuns {
  import opened HazardStack
  import opened HazardStackProof

  /** A run: the states, and for each step the thread that moved and what it did. */
  ghost predicate IsRun(r: seq<State>, who: seq<nat>, acts: seq<Action>) {
    && |r| > 0 && |who| == |acts| == |r| - 1
    && Init(r[0])
    && (forall i | 0 <= i < |who| :: Step(r[i], r[i + 1], who[i], acts[i]))
  }

  lemma {:induction false} RunInv(r: seq<State>, who: seq<nat>, acts: seq<Action>, i: nat)
    requires IsRun(r, who, acts) && SafeSlots(r[0]) && i < |r|
    ensures Inv(r[i]) && SafeSlots(r[i])
  {
    hide Step, Init, Inv, SafeSlots;
    if i == 0 {
      InitInv(r[0]);
    } else {
      RunInv(r, who, acts, i - 1);
      assert Step(r[i - 1], r[i], who[i - 1], acts[i - 1]);
      StepInv(r[i - 1], r[i], who[i - 1], acts[i - 1]);
    }
  }

  /** The cells the next step of `p` dereferences or deletes are live and of the right kind. */
  predicate AccessOk(s: State, p: nat)
    requires p < |s.threads|
  {
    match s.threads[p].pc
    case PushLoad(n, _) => IsNode(s, n)
    case PushCas(n, _) => IsNode(s, n)
    case PopPublish(_) => p < |s.hazard|
    case PopReadNext(hd) => IsNode(s, hd)
    case PopClear(_) => p < |s.hazard|
    case PopTake(hd) => IsNode(s, hd)
    case RetireInsert(rec, _) => IsRecord(s, rec)
    case ScanNext(cur, _) => cur == 0 || IsRecord(s, cur)
    case ScanReinsert(cur, _, _) => IsRecord(s, cur)
    case ScanDeleteNode(cur, _, _) => IsRecord(s, cur) && IsNode(s, s.heap[cur].node)
    case ScanDeleteRec(cur, _, _) => IsRecord(s, cur)
    case _ => true
  }

  lemma InvAccess(s: State, p: nat)
    requires Inv(s) && p < |s.threads|
    ensures AccessOk(s, p)
  {
    assert PcOk(s, p) && HazardOk(s, p) && RestOk(s, p);
    if s.threads[p].pc.ScanNext? && s.threads[p].pc.cur != 0 {
      FrontRecord(s, p);
    }
    if Holding(s.threads[p].pc) {
      assert RecordOk(s, HeldBy(s.threads[p].pc));
    }
    hide Inv, StackOk, ListOk, RestOk, Linked;
  }

  /** No thread ever touches a deleted cell, in any interleaving and with any reuse of addresses. */
  lemma MemorySafety(r: seq<State>, who: seq<nat>, acts: seq<Action>, i: nat, p: nat)
    requires IsRun(r, who, acts) && SafeSlots(r[0]) && i < |r| && p < |r[i].threads|
    ensures AccessOk(r[i], p)
  {
    RunInv(r, who, acts, i);
    InvAccess(r[i], p);
  }

  /** Any number of threads may start, any of them poppers that have a slot, with any range of the scan and any
      threshold. */
  lemma CanStart(start: nat, max: nat, limit: int, poppers: set<nat>, n: nat) returns (s: State)
    requires start <= max && forall p | p in poppers :: p < max && p < n
    ensures s.start == start && s.max == max && s.limit == limit && s.poppers == poppers && |s.threads| == n
    ensures IsRun([s], [], [])
  {
    s := State(start, max, limit, poppers, 0, 0, 0, seq(max, i => 0), map[], seq(n, i => Thread(Idle, [], Pending)),
               map[], [], []);
  }
}
