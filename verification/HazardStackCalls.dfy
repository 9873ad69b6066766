/** What a call of the stack does with its argument, why it goes round its loop, and that it gets on.

    The argument of `push` is followed back through the run to the step of the call (`ArgumentOf`), and so is the
    head that a popper works with (`HeadLoad`): if it is no longer the head, somebody else has changed it since.

    A call gets on in a well-founded order (`Nearer`): the parts of the call, the last one first; within the scan,
    the records that are left; within one record, the slots that are left. Each step goes down in that order, or
    round a loop (`Retries`).

    And there always is a step: `PopHasStep`, `ScanHasStep` and `EndHasStep` give it for every place in the code,
    from what the invariant says of the addresses in use there. */
module HazardStackCalls {
  import opened Wrappers
  import opened HazardStack
  import opened HazardStackProof
  import opened HazardStackRuns
  import opened HazardStackLifo

  // ------------------------------------------------------------ the argument of push

  /** `p` called `push` at step `j` and has been in that call up to state `i`. */
  ghost predicate SamePush(r: seq<State>, who: seq<nat>, acts: seq<Action>, j: nat, i: nat, p: nat)
    requires |who| == |acts|
  {
    && j < i < |r| && i <= |who| && who[j] == p && acts[j].NewNode?
    && (forall k | j < k <= i :: p < |r[k].threads| && Pushing(r[k].threads[p].pc))
    && (forall k | j < k < i :: !(who[k] == p && acts[k].NewNode?))
  }

  lemma ArgumentStep(s: State, s': State, q: nat, a: Action, p: nat)
    requires Step(s, s', q, a) && p < |s'.threads| && Pushing(s'.threads[p].pc)
    ensures p < |s.threads|
    ensures || (q == p && a.NewNode? && a.v == s'.threads[p].pc.v)
            || (Pushing(s.threads[p].pc) && s.threads[p].pc.v == s'.threads[p].pc.v && !(q == p && a.NewNode?))
  {
    if p != q {
      OtherThread(s, s', q, a, p);
      hide Step;
    }
  }

  /** The value a pusher works with is the one it was called with. */
  lemma {:induction false} ArgumentOf(r: seq<State>, who: seq<nat>, acts: seq<Action>, i: nat, p: nat) returns (j: nat)
    requires IsRun(r, who, acts) && i < |r| && p < |r[i].threads| && Pushing(r[i].threads[p].pc)
    ensures SamePush(r, who, acts, j, i, p) && acts[j].v == r[i].threads[p].pc.v
    decreases i
  {
    hide Step, Pushing;
    if i == 0 {
      NobodyPushes(r[0], p);
      assert false;
    }
    assert Step(r[i - 1], r[i], who[i - 1], acts[i - 1]);
    ArgumentStep(r[i - 1], r[i], who[i - 1], acts[i - 1], p);
    if who[i - 1] == p && acts[i - 1].NewNode? {
      j := i - 1;
    } else {
      j := ArgumentOf(r, who, acts, i - 1, p);
    }
  }

  lemma NobodyPushes(s: State, p: nat)
    requires Init(s) && p < |s.threads|
    ensures !Pushing(s.threads[p].pc)
  {
  }

  lemma PusherMoves(s: State, s': State, p: nat)
    requires Step(s, s', p, PushCasOk)
    ensures p < |s.threads| && Pushing(s.threads[p].pc)
  {
  }

  /** The exchange of a push puts the argument of that very call on top. */
  lemma PushTakesEffect(r: seq<State>, who: seq<nat>, acts: seq<Action>, i: nat) returns (j: nat)
    requires IsRun(r, who, acts) && SafeSlots(r[0]) && i < |who| && acts[i].PushCasOk?
    ensures SamePush(r, who, acts, j, i, who[i])
    ensures Inv(r[i]) && Inv(r[i + 1]) && Contents(r[i + 1]) == [acts[j].v] + Contents(r[i])
  {
    hide Step, Inv, Contents;
    assert Step(r[i], r[i + 1], who[i], acts[i]);
    PusherMoves(r[i], r[i + 1], who[i]);
    RunIsLifo(r, who, acts, i);
    j := ArgumentOf(r, who, acts, i, who[i]);
    hide IsRun;
  }

  /** A push comes to its end by its exchange and by nothing else. */
  lemma PushEndsByEffect(s: State, s': State, q: nat, a: Action, p: nat)
    requires Step(s, s', q, a) && p < |s.threads| && Pushing(s.threads[p].pc)
    ensures p < |s'.threads| && (!Pushing(s'.threads[p].pc) ==> q == p && a.PushCasOk?)
  {
  }

  // ------------------------------------------------------------ going round the loop

  /** Still works with the head it has loaded. */
  predicate HasHead(pc: Pc) { pc.PopPublish? || pc.PopReload? || pc.PopReadNext? || pc.PopCas? }

  function HeadOf(pc: Pc): Ptr
    requires HasHead(pc)
  {
    if pc.PopReload? then pc.temp else pc.hd
  }

  predicate LoadsHead(a: Action) { a.PopStart? || a.Reload? || a.PopCasFail? }

  predicate MovesHead(a: Action) { a.PushCasOk? || a.PopCasOk? }

  lemma HeadStep(s: State, s': State, q: nat, a: Action, p: nat)
    requires Step(s, s', q, a) && p < |s'.threads| && HasHead(s'.threads[p].pc)
    ensures p < |s.threads|
    ensures || (q == p && LoadsHead(a) && s.head == HeadOf(s'.threads[p].pc))
            || (HasHead(s.threads[p].pc) && HeadOf(s.threads[p].pc) == HeadOf(s'.threads[p].pc)
                && !(q == p && MovesHead(a)))
  {
    if p != q {
      OtherThread(s, s', q, a, p);
      hide Step;
    }
  }

  /** `p` loaded the head it works with at step `j`, and has not changed it since. */
  ghost predicate HeadLoadedAt(r: seq<State>, who: seq<nat>, acts: seq<Action>, j: nat, i: nat, p: nat)
    requires |who| == |acts|
  {
    && j < i < |r| && i <= |who| && who[j] == p && LoadsHead(acts[j])
    && (forall k | j < k <= i :: p < |r[k].threads| && HasHead(r[k].threads[p].pc))
    && (forall k | j < k < i :: !(who[k] == p && MovesHead(acts[k])))
  }

  lemma {:induction false} HeadLoad(r: seq<State>, who: seq<nat>, acts: seq<Action>, i: nat, p: nat) returns (j: nat)
    requires IsRun(r, who, acts) && i < |r| && p < |r[i].threads| && HasHead(r[i].threads[p].pc)
    ensures HeadLoadedAt(r, who, acts, j, i, p) && r[j].head == HeadOf(r[i].threads[p].pc)
    decreases i
  {
    hide Step, HeadOf, LoadsHead, MovesHead;
    assert i > 0;
    assert Step(r[i - 1], r[i], who[i - 1], acts[i - 1]);
    HeadStep(r[i - 1], r[i], who[i - 1], acts[i - 1], p);
    if who[i - 1] == p && LoadsHead(acts[i - 1]) && r[i - 1].head == HeadOf(r[i].threads[p].pc) {
      j := i - 1;
    } else {
      hide Init;
      j := HeadLoad(r, who, acts, i - 1, p);
    }
  }

  lemma HeadMoves(s: State, s': State, q: nat, a: Action)
    requires Step(s, s', q, a) && !MovesHead(a)
    ensures s'.head == s.head
  {
  }

  lemma {:induction false} HeadChange(r: seq<State>, who: seq<nat>, acts: seq<Action>, j: nat, i: nat) returns (k: nat)
    requires IsRun(r, who, acts) && j <= i < |r| && r[j].head != r[i].head
    ensures j <= k < i && MovesHead(acts[k])
    decreases i
  {
    hide Step, Init, MovesHead;
    assert Step(r[i - 1], r[i], who[i - 1], acts[i - 1]);
    if MovesHead(acts[i - 1]) {
      k := i - 1;
    } else {
      HeadMoves(r[i - 1], r[i], who[i - 1], acts[i - 1]);
      k := HeadChange(r, who, acts, j, i - 1);
    }
  }

  predicate PopRetry(s: State, s': State, p: nat, a: Action)
    requires p < |s'.threads|
  {
    a.PopCasFail? || (a.Reload? && s'.threads[p].pc.PopPublish?)
  }

  lemma RetryState(s: State, s': State, p: nat, a: Action)
    requires Step(s, s', p, a) && p < |s'.threads| && PopRetry(s, s', p, a)
    ensures p < |s.threads| && HasHead(s.threads[p].pc) && s.head != HeadOf(s.threads[p].pc)
  {
  }

  /** A pop goes round one of its loops only because, since it loaded the head, another thread has pushed or
      popped. */
  lemma PopRetries(r: seq<State>, who: seq<nat>, acts: seq<Action>, i: nat) returns (j: nat, k: nat)
    requires IsRun(r, who, acts) && i < |who|
    requires who[i] < |r[i + 1].threads| && PopRetry(r[i], r[i + 1], who[i], acts[i])
    ensures HeadLoadedAt(r, who, acts, j, i, who[i])
    ensures j < k < i && who[k] != who[i] && MovesHead(acts[k])
  {
    hide Step, Init, PopRetry, HasHead;
    assert Step(r[i], r[i + 1], who[i], acts[i]);
    RetryState(r[i], r[i + 1], who[i], acts[i]);
    j := HeadLoad(r, who, acts, i, who[i]);
    k := HeadChange(r, who, acts, j, i);
  }

  /** A push whose exchange has failed, and the thread that links a record likewise, would succeed at once if
      nobody else moved. */
  lemma FailedExchangeIsReady(s: State, s': State, p: nat, a: Action) returns (s'': State)
    requires Step(s, s', p, a) && (a.LoadIntoNext? || a.PushCasFail? || a.InsertFail?)
    ensures Step(s', s'', p, if a.InsertFail? then InsertOk else PushCasOk)
  {
    var pc := s'.threads[p].pc;
    if a.InsertFail? {
      s'' := s'.(reclaim := HeldBy(pc), list := [HeldBy(pc)] + s'.list, role := s'.role[HeldBy(pc) := Shared],
                 threads := Goto(s', p, if pc.RetireInsert? then RetireCount(pc.res) else ScanNext(pc.next, pc.res)));
    } else {
      s'' := s'.(head := pc.n, chain := [pc.n] + s'.chain, role := s'.role[pc.n := InStack],
                 threads := Goto(s', p, Idle));
    }
  }

  // ------------------------------------------------------------ getting on

  predicate Retries(s: State, s': State, p: nat, a: Action)
    requires p < |s'.threads|
  {
    a.PushCasFail? || a.InsertFail? || PopRetry(s, s', p, a)
  }

  /** The part of its call a thread is in, the last one first; the scan is one part. */
  function Part(pc: Pc): nat {
    match pc
    case Idle => 0
    case PushCas(_, _) => 1
    case PushLoad(_, _) => 2
    case PopReturn(_) => 1
    case ScanNext(_, _) => 2
    case ScanSlot(_, _, _, _, _) => 2
    case ScanReinsert(_, _, _) => 2
    case ScanDeleteNode(_, _, _) => 2
    case ScanDeleteRec(_, _, _) => 2
    case ScanCount(_, _) => 2
    case ScanTake(_) => 3
    case PopDecide(_) => 4
    case RetireCount(_) => 5
    case RetireInsert(_, _) => 6
    case RetireAlloc(_, _) => 7
    case PopTake(_) => 8
    case PopClear(_) => 9
    case PopCas(_, _) => 10
    case PopReadNext(_) => 11
    case PopReload(_) => 12
    case PopPublish(_) => 13
  }

  /** Within the scan of one record. */
  function Within(pc: Pc, max: nat): int {
    match pc
    case ScanSlot(_, _, _, i, _) => max - i + 4
    case ScanDeleteNode(_, _, _) => 3
    case ScanDeleteRec(_, _, _) => 2
    case ScanCount(_, _) => 1
    case ScanReinsert(_, _, _) => 1
    case _ => 0
  }

  /** Nearer to the end of the call: a later part, fewer records left to scan, or further with this one. */
  ghost predicate Nearer(s: State, s': State, p: nat)
    requires p < |s.threads| && p < |s'.threads|
  {
    var t, t' := s.threads[p], s'.threads[p];
    || Part(t'.pc) < Part(t.pc)
    || (Part(t'.pc) == Part(t.pc) && |t'.rest| < |t.rest|)
    || (Part(t'.pc) == Part(t.pc) && |t'.rest| == |t.rest| && 0 <= Within(t'.pc, s'.max) < Within(t.pc, s.max))
  }

  lemma RestFront(s: State, p: nat)
    requires p < |s.threads| && RestOk(s, p) && Frontier(s.threads[p].pc) != 0
    ensures |s.threads[p].rest| > 0
  {
  }

  lemma PopGetsOn(s: State, s': State, p: nat, a: Action)
    requires Ready(s, p) && Step(s, s', p, a) && (LoopStep(a) || OwnerStep(a) || PushStep(a) || a.PopCasOk?)
    requires !s.threads[p].pc.Idle?
    ensures p < |s'.threads| && (Retries(s, s', p, a) || Nearer(s, s', p))
  {
    hide HazardOk, RecordOk;
  }

  lemma AdvanceGetsOn(s: State, s': State, p: nat)
    requires p < |s.threads| && RestOk(s, p) && DoAdvance(s, s', p)
    ensures p < |s'.threads| && Nearer(s, s', p)
  {
    RestFront(s, p);
    hide RestOk;
  }

  lemma ScanGetsOn(s: State, s': State, p: nat, a: Action)
    requires Step(s, s', p, a) && ScanStep(a) && !a.Advance?
    ensures p < |s'.threads| && Nearer(s, s', p)
  {
  }

  lemma QuietGetsOn(s: State, s': State, p: nat, a: Action)
    requires Shape(s) && p < |s.threads| && PcOk(s, p) && Step(s, s', p, a) && QuietStep(a)
    ensures p < |s'.threads| && Nearer(s, s', p)
  {
  }

  lemma ReadyShape(s: State, p: nat)
    requires Ready(s, p)
    ensures Shape(s) && PcOk(s, p)
  {
    hide Shape, PcOk, HazardOk, RecordOk;
  }

  /** Every step of a thread in a call brings it nearer to the end of the call, unless it goes round a loop. */
  lemma StepGetsOn(s: State, s': State, p: nat, a: Action)
    requires Inv(s) && Step(s, s', p, a) && p < |s.threads| && !s.threads[p].pc.Idle?
    ensures p < |s'.threads| && (Retries(s, s', p, a) || Nearer(s, s', p))
  {
    hide Inv, DoAdvance, Ready, StackOk, ListOk, RestOk, Nearer, Retries, Shape, PcOk;
    InvReady(s, p);
    ReadyShape(s, p);
    if a.Advance? {
      AdvanceGetsOn(s, s', p);
    } else if ScanStep(a) {
      ScanGetsOn(s, s', p, a);
    } else if QuietStep(a) {
      QuietGetsOn(s, s', p, a);
    } else {
      PopGetsOn(s, s', p, a);
    }
  }

  /** `push` may be called with any value, by any thread that is in no call, and gets whatever free address. */
  lemma PushAccepted(s: State, p: nat, v: int, n: Ptr, garbage: Ptr) returns (s': State)
    requires p < |s.threads| && s.threads[p].pc.Idle? && n != 0 && n !in s.heap
    ensures Step(s, s', p, NewNode(v, n, garbage)) && !s'.threads[p].pc.Idle?
  {
    s' := s.(heap := s.heap[n := Node(Some(v), garbage)], role := s.role[n := Fresh(p)],
             threads := Goto(s, p, PushLoad(n, v)));
  }

  /** And `pop` by any popper. */
  lemma PopAccepted(s: State, p: nat) returns (s': State)
    requires p < |s.threads| && s.threads[p].pc.Idle? && p in s.poppers
    ensures Step(s, s', p, PopStart) && !s'.threads[p].pc.Idle?
  {
    s' := s.(threads := s.threads[p := s.threads[p].(pc := PopPublish(s.head), claim := Pending)]);
  }

  lemma PopHasStep(s: State, p: nat, free: Ptr) returns (s': State, a: Action)
    requires Ready(s, p) && AccessOk(s, p) && free != 0 && free !in s.heap && !s.threads[p].pc.Idle?
    requires Part(s.threads[p].pc) > 4 || Pushing(s.threads[p].pc)
    ensures Step(s, s', p, a)
  {
    hide HazardOk, RecordOk;
    var t, pc := s.threads[p], s.threads[p].pc;
    match pc
    case PushLoad(n, v) =>
      a := LoadIntoNext;
      s' := s.(heap := s.heap[n := Relink(s.heap[n], s.head)], threads := Goto(s, p, PushCas(n, v)));
    case PushCas(n, v) =>
      if s.head == s.heap[n].next {
        a := PushCasOk;
        s' := s.(head := n, chain := [n] + s.chain, role := s.role[n := InStack], threads := Goto(s, p, Idle));
      } else {
        a := PushCasFail;
        s' := s.(heap := s.heap[n := Relink(s.heap[n], s.head)]);
      }
    case PopPublish(hd) =>
      a := Publish;
      s' := s.(hazard := s.hazard[p := hd], threads := Goto(s, p, PopReload(hd)));
    case PopReload(temp) =>
      a := Reload;
      s' := s.(threads := if s.head != temp then Goto(s, p, PopPublish(s.head))
                          else if s.head == 0 then s.threads[p := t.(pc := PopClear(0), claim := SawEmpty)]
                          else Goto(s, p, PopReadNext(s.head)));
    case PopReadNext(hd) =>
      a := ReadNext;
      s' := s.(threads := Goto(s, p, PopCas(hd, s.heap[hd].next)));
    case PopCas(hd, next) =>
      if s.head == hd {
        a := PopCasOk;
        s' := s.(head := next, chain := Tail(s.chain), role := s.role[hd := Detached(p)],
                 threads := s.threads[p := t.(pc := PopClear(hd), claim := Took(DataAt(s, hd)))]);
      } else {
        a := PopCasFail;
        s' := s.(threads := Goto(s, p, PopPublish(s.head)));
      }
    case PopClear(hd) =>
      a := Clear;
      s' := s.(hazard := s.hazard[p := 0], threads := Goto(s, p, if hd == 0 then PopReturn(None) else PopTake(hd)));
    case PopTake(hd) =>
      a := Take;
      s' := s.(heap := s.heap[hd := Node(None, s.heap[hd].next)],
               threads := Goto(s, p, RetireAlloc(hd, s.heap[hd].data)));
    case RetireAlloc(hd, res) =>
      a := NewRecord(free);
      s' := s.(heap := s.heap[free := Record(hd, 0)], role := s.role[free := Held(p)][hd := Retired(free)],
               threads := Goto(s, p, RetireInsert(free, res)));
    case RetireInsert(r, res) =>
      if s.reclaim == s.heap[r].next {
        a := InsertOk;
        s' := s.(reclaim := r, list := [r] + s.list, role := s.role[r := Shared],
                 threads := Goto(s, p, RetireCount(res)));
      } else {
        a := InsertFail;
        s' := s.(heap := s.heap[r := Relink(s.heap[r], s.reclaim)]);
      }
    case RetireCount(res) =>
      a := CountUp;
      s' := s.(cnt := s.cnt + 1, threads := Goto(s, p, PopDecide(res)));
  }

  lemma ScanHasStep(s: State, p: nat) returns (s': State, a: Action)
    requires p < |s.threads| && AccessOk(s, p) && !s.threads[p].pc.Idle? && !Ending(s.threads[p].pc)
    requires Part(s.threads[p].pc) <= 4 && !Pushing(s.threads[p].pc)
    ensures Step(s, s', p, a)
  {
    var t, pc := s.threads[p], s.threads[p].pc;
    match pc
    case PopDecide(res) =>
      a := Decide;
      s' := s.(threads := Goto(s, p, if s.cnt >= s.limit then ScanTake(res) else PopReturn(res)));
    case ScanTake(res) =>
      a := TakeList;
      s' := s.(reclaim := 0, list := [], role := MoveToRest(s.role, s.list, p),
               threads := s.threads[p := t.(pc := ScanNext(s.reclaim, res), rest := s.list)]);
    case ScanNext(cur, res) =>
      if cur == 0 {
        a := ScanEnd;
        s' := s.(threads := Goto(s, p, PopReturn(res)));
      } else {
        a := Advance;
        s' := s.(role := s.role[cur := Held(p)],
                 threads := s.threads[p := t.(rest := Tail(t.rest),
                   pc := ScanSlot(cur, s.heap[cur].next, s.heap[cur].node, s.start, res))]);
      }
    case ScanSlot(cur, next, node, i, res) =>
      a := CheckSlot;
      s' := s.(threads := if i >= |s.hazard| then Goto(s, p, ScanDeleteNode(cur, next, res))
                          else if s.hazard[i] == node then Goto(s, p, ScanReinsert(cur, next, res))
                          else Goto(s, p, ScanSlot(cur, next, node, i + 1, res)));
  }

  /** The last steps with a record, and of the call. */
  predicate Ending(pc: Pc) {
    pc.ScanReinsert? || pc.ScanDeleteNode? || pc.ScanDeleteRec? || pc.ScanCount? || pc.PopReturn?
  }

  lemma EndHasStep(s: State, p: nat) returns (s': State, a: Action)
    requires p < |s.threads| && AccessOk(s, p) && Ending(s.threads[p].pc)
    ensures Step(s, s', p, a)
  {
    var pc := s.threads[p].pc;
    match pc
    case ScanReinsert(cur, next, res) =>
      if s.reclaim == s.heap[cur].next {
        a := InsertOk;
        s' := s.(reclaim := cur, list := [cur] + s.list, role := s.role[cur := Shared],
                 threads := Goto(s, p, ScanNext(next, res)));
      } else {
        a := InsertFail;
        s' := s.(heap := s.heap[cur := Relink(s.heap[cur], s.reclaim)]);
      }
    case ScanDeleteNode(cur, next, res) =>
      a := DeleteNode;
      s' := s.(heap := s.heap - {s.heap[cur].node},
               role := s.role[cur := Spent(p)] - {s.heap[cur].node},
               threads := Goto(s, p, ScanDeleteRec(cur, next, res)));
    case ScanDeleteRec(cur, next, res) =>
      a := DeleteRecord;
      s' := s.(heap := s.heap - {cur}, role := s.role - {cur}, threads := Goto(s, p, ScanCount(next, res)));
    case ScanCount(next, res) =>
      a := CountDown;
      s' := s.(cnt := s.cnt - 1, threads := Goto(s, p, ScanNext(next, res)));
    case PopReturn(res) =>
      a := Return;
      s' := s.(threads := Goto(s, p, Idle));
  }

  /** No call is ever stuck: in every run a thread in a call has a step, and it brings the call nearer to its end
      or goes round a loop. */
  lemma CallsGetOn(r: seq<State>, who: seq<nat>, acts: seq<Action>, i: nat, p: nat, free: Ptr)
    returns (s': State, a: Action)
    requires IsRun(r, who, acts) && SafeSlots(r[0]) && i < |r| && p < |r[i].threads| && !r[i].threads[p].pc.Idle?
    requires free != 0 && free !in r[i].heap
    ensures Step(r[i], s', p, a) && p < |s'.threads| && (Retries(r[i], s', p, a) || Nearer(r[i], s', p))
  {
    hide Step, Inv, Ready, AccessOk, Nearer, Retries, StackOk, ListOk, RestOk, Part, Pushing, Ending;
    RunInv(r, who, acts, i);
    hide IsRun;
    InvReady(r[i], p);
    InvAccess(r[i], p);
    if Part(r[i].threads[p].pc) > 4 || Pushing(r[i].threads[p].pc) {
      s', a := PopHasStep(r[i], p, free);
    } else if Ending(r[i].threads[p].pc) {
      s', a := EndHasStep(r[i], p);
    } else {
      s', a := ScanHasStep(r[i], p);
    }
    StepGetsOn(r[i], s', p, a);
  }
}
