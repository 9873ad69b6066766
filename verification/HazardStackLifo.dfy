/** The stack refines an abstract last-in-first-out sequence, although addresses are reused. */
module HazardStackLifo {
  import opened Wrappers
  import opened HazardStack
  import opened HazardStackProof
  import opened HazardStackRuns

  /** The abstract stack, top first. */
  ghost function Contents(s: State): seq<int>
    requires StackOk(s)
  {
    seq(|s.chain|, i requires 0 <= i < |s.chain| && StackOk(s) => s.heap[s.chain[i]].data.value)
  }

  /** What one step does to the abstract stack. */
  ghost predicate Effect(s: State, s': State, p: nat, a: Action)
    requires StackOk(s) && StackOk(s') && p < |s.threads| == |s'.threads|
  {
    var t, t' := s.threads[p], s'.threads[p];
    if a.PushCasOk? then
      t.pc.PushCas? && Contents(s') == [t.pc.v] + Contents(s)
    else if a.PopCasOk? then
      t.claim == Pending && |s.chain| > 0 && s'.head == At(s.chain, 1)
      && t'.claim == Took(Some(Contents(s)[0])) && Contents(s') == Contents(s)[1..]
    else
      Contents(s') == Contents(s)
      && (t'.claim != t.claim ==>
            (a.PopStart? && t.pc.Idle? && t'.claim == Pending)
            || (t.claim == Pending && t'.claim == SawEmpty && Contents(s) == []))
  }

  /** The result a `pop` carries is the one its abstract step gave it. */
  ghost predicate ClaimOk(s: State, p: nat)
    requires p < |s.threads|
  {
    var t := s.threads[p];
    match t.pc
    case Idle => true
    case PushLoad(_, _) => true
    case PushCas(_, _) => true
    case PopPublish(_) => t.claim == Pending
    case PopReload(_) => t.claim == Pending
    case PopReadNext(_) => t.claim == Pending
    case PopCas(_, _) => t.claim == Pending
    case PopClear(hd) => if hd == 0 then t.claim == SawEmpty else DataAt(s, hd).Some? && t.claim == Took(DataAt(s, hd))
    case PopTake(hd) => DataAt(s, hd).Some? && t.claim == Took(DataAt(s, hd))
    case PopReturn(res) => t.claim == if res == None then SawEmpty else Took(res)
    case _ => t.pc.res.Some? && t.claim == Took(t.pc.res)
  }

  ghost predicate LinInv(s: State) {
    Inv(s) && forall p | 0 <= p < |s.threads| :: ClaimOk(s, p)
  }

  /** Every cell a step may write besides a stack node that is being popped. */
  ghost predicate Beside(s: State, touched: set<Ptr>) {
    forall x | x in touched && x in s.role :: s.role[x] != InStack
  }

  /** Only a successful pop touches a node of the stack. */
  lemma RelistsBeside(s: State, s': State, p: nat, a: Action)
    requires Ready(s, p) && RestOk(s, p) && ListOk(s) && Step(s, s', p, a) && Relists(a) && !a.PopCasOk?
    ensures Beside(s, Touched(s, p, a))
  {
    if a.Advance? {
      FrontRecord(s, p);
    }
    hide RestOk;
  }

  lemma StepBeside(s: State, s': State, p: nat, a: Action)
    requires Ready(s, p) && RestOk(s, p) && ListOk(s) && Step(s, s', p, a) && Writes(a) && !a.PopCasOk?
    ensures Beside(s, Touched(s, p, a)) && (a.PushCasOk? || s'.chain == s.chain)
  {
    hide Ready, Touched, ListOk, RestOk;
    if Relists(a) {
      RelistsBeside(s, s', p, a);
    } else if PushStep(a) {
      PushApart(s, s', p, a);
    } else if OwnerStep(a) {
      OwnerApart(s, s', p, a);
    } else {
      ScanApart(s, s', p, a);
    }
  }

  /** The cells a step writes; only a successful pop touches a node of the stack. */
  lemma StepFrame(s: State, s': State, p: nat, a: Action) returns (touched: set<Ptr>)
    requires Inv(s) && Step(s, s', p, a)
    ensures Frame(s, s', p, touched)
    ensures !a.PopCasOk? ==> Beside(s, touched)
    ensures !a.PopCasOk? && !a.PushCasOk? ==> s'.chain == s.chain
  {
    hide Inv, Ready, Frame, TouchedOk, StackOk, ListOk, RestOk, Step;
    if Writes(a) {
      StepTouches(s, s', p, a);
      touched := Touched(s, p, a);
      InvReady(s, p);
      hide Touched;
      if !a.PopCasOk? {
        StepBeside(s, s', p, a);
      }
    } else {
      QuietFrame(s, s', p, a);
      touched := {};
    }
  }

  lemma ContentsKept(s: State, s': State, p: nat, touched: set<Ptr>)
    requires StackOk(s) && StackOk(s') && Frame(s, s', p, touched) && s'.chain == s.chain
    requires Beside(s, touched)
    ensures Contents(s') == Contents(s)
  {
  }

  lemma PushEffect(s: State, s': State, p: nat)
    requires StackOk(s) && StackOk(s') && DoPushCasOk(s, s', p) && PcOk(s, p)
    ensures Contents(s') == [s.threads[p].pc.v] + Contents(s)
  {
    var v := s.threads[p].pc.v;
    assert s'.chain[0] == s.threads[p].pc.n && s'.heap == s.heap;
    hide PcOk;
    forall i | 0 <= i < |s.chain|
      ensures Contents(s')[i + 1] == Contents(s)[i]
    {
      assert s'.chain[i + 1] == s.chain[i];
    }
    assert Contents(s')[0] == v;
    hide StackOk;
  }

  lemma PopEffect(s: State, s': State, p: nat)
    requires Inv(s) && Inv(s') && DoPopCasOk(s, s', p)
    ensures |s.chain| > 0 && s'.head == At(s.chain, 1)
    ensures s'.threads[p].claim == Took(Some(Contents(s)[0])) && Contents(s') == Contents(s)[1..]
  {
    assert HazardOk(s, p);
    LinkedTail(s, s.head, s.chain, InStack);
    assert s.heap[s.chain[0]].next == At(s.chain, 1);
  }

  lemma ClaimChange(s: State, s': State, p: nat, a: Action)
    requires Step(s, s', p, a) && p < |s.threads| && ClaimOk(s, p) && !a.PopCasOk?
    ensures |s'.threads| == |s.threads|
    ensures var t, t' := s.threads[p], s'.threads[p];
            t'.claim != t.claim ==>
              (a.PopStart? && t.pc.Idle? && t'.claim == Pending)
              || (t.claim == Pending && t'.claim == SawEmpty && s.head == 0)
  {
  }

  lemma OtherEffect(s: State, s': State, p: nat, a: Action)
    requires Inv(s) && Inv(s') && Step(s, s', p, a) && p < |s.threads| && ClaimOk(s, p)
    requires !a.PushCasOk? && !a.PopCasOk?
    ensures |s'.threads| == |s.threads| && Effect(s, s', p, a)
  {
    assert StackOk(s) && StackOk(s');
    assert s.head == 0 ==> s.chain == [];
    hide Inv, Step, ClaimOk, Frame, Beside, StackOk;
    var touched := StepFrame(s, s', p, a);
    ClaimChange(s, s', p, a);
    ContentsKept(s, s', p, touched);
  }

  lemma StepEffect(s: State, s': State, p: nat, a: Action)
    requires LinInv(s) && SafeSlots(s) && Step(s, s', p, a)
    ensures Inv(s') && p < |s.threads| == |s'.threads| && Effect(s, s', p, a)
  {
    StepInv(s, s', p, a);
    assert p < |s.threads|;
    assert ClaimOk(s, p);
    if a.PushCasOk? {
      assert PcOk(s, p);
      PushEffect(s, s', p);
      hide Inv, Contents;
    } else if a.PopCasOk? {
      PopEffect(s, s', p);
      hide Inv, Contents;
    } else {
      hide Inv, Step, Effect, ClaimOk;
      OtherEffect(s, s', p, a);
    }
  }

  lemma OtherClaims(s: State, s': State, p: nat, touched: set<Ptr>, q: nat)
    requires LinInv(s) && Frame(s, s', p, touched) && q < |s.threads| && q != p
    ensures ClaimOk(s', q)
  {
    assert PcOk(s, q) && ClaimOk(s, q);
  }

  predicate QuietStep(a: Action) {
    a.CountUp? || a.Decide? || a.ScanEnd? || a.CheckSlot? || a.CountDown? || a.Return?
  }

  predicate LoopStep(a: Action) { a.PopStart? || a.Publish? || a.Reload? || a.ReadNext? || a.PopCasFail? || a.Clear? }

  lemma OwnClaimPush(s: State, s': State, p: nat, a: Action)
    requires p < |s.threads| && PcOk(s, p) && ClaimOk(s, p) && Step(s, s', p, a) && PushStep(a)
    ensures |s'.threads| == |s.threads| && ClaimOk(s', p)
  {
  }

  lemma OwnClaimLoop(s: State, s': State, p: nat, a: Action)
    requires p < |s.threads| && PcOk(s, p) && ClaimOk(s, p) && Step(s, s', p, a) && LoopStep(a)
    ensures |s'.threads| == |s.threads| && ClaimOk(s', p)
  {
  }

  lemma OwnClaimOwner(s: State, s': State, p: nat, a: Action)
    requires p < |s.threads| && PcOk(s, p) && ClaimOk(s, p) && Step(s, s', p, a) && OwnerStep(a)
    ensures |s'.threads| == |s.threads| && ClaimOk(s', p)
  {
  }

  lemma OwnClaimScan(s: State, s': State, p: nat, a: Action)
    requires p < |s.threads| && PcOk(s, p) && ClaimOk(s, p) && Step(s, s', p, a) && ScanStep(a)
    ensures |s'.threads| == |s.threads| && ClaimOk(s', p)
  {
  }

  lemma OwnClaimQuiet(s: State, s': State, p: nat, a: Action)
    requires p < |s.threads| && PcOk(s, p) && ClaimOk(s, p) && Step(s, s', p, a) && QuietStep(a)
    ensures |s'.threads| == |s.threads| && ClaimOk(s', p)
  {
  }

  lemma OwnClaimCas(s: State, s': State, p: nat)
    requires LinInv(s) && DoPopCasOk(s, s', p)
    ensures p < |s.threads| == |s'.threads| && ClaimOk(s', p)
  {
    assert HazardOk(s, p);
    LinkedTail(s, s.head, s.chain, InStack);
    hide Inv, ListOk, RestOk, RecordOk;
  }

  lemma OwnClaim(s: State, s': State, p: nat, a: Action)
    requires LinInv(s) && Step(s, s', p, a)
    ensures p < |s.threads| == |s'.threads| && ClaimOk(s', p)
  {
    assert PcOk(s, p) && ClaimOk(s, p);
    hide Inv, ClaimOk, PcOk, HazardOk;
    if a.PopCasOk? {
      OwnClaimCas(s, s', p);
    } else if PushStep(a) {
      OwnClaimPush(s, s', p, a);
    } else if LoopStep(a) {
      OwnClaimLoop(s, s', p, a);
    } else if OwnerStep(a) {
      OwnClaimOwner(s, s', p, a);
    } else if ScanStep(a) {
      OwnClaimScan(s, s', p, a);
    } else {
      OwnClaimQuiet(s, s', p, a);
    }
  }

  lemma StepLin(s: State, s': State, p: nat, a: Action)
    requires LinInv(s) && SafeSlots(s) && Step(s, s', p, a)
    ensures LinInv(s')
  {
    StepInv(s, s', p, a);
    var touched := StepFrame(s, s', p, a);
    OwnClaim(s, s', p, a);
    forall q | 0 <= q < |s'.threads|
      ensures ClaimOk(s', q)
    {
      if q != p {
        OtherClaims(s, s', p, touched, q);
      }
    }
  }

  lemma {:induction false} RunLin(r: seq<State>, who: seq<nat>, acts: seq<Action>, i: nat)
    requires IsRun(r, who, acts) && SafeSlots(r[0]) && i < |r|
    ensures LinInv(r[i]) && SafeSlots(r[i]) && |r[i].threads| == |r[0].threads|
  {
    if i == 0 {
      InitInv(r[0]);
    } else {
      hide Step, Init;
      RunLin(r, who, acts, i - 1);
      assert Step(r[i - 1], r[i], who[i - 1], acts[i - 1]);
      hide LinInv, Inv;
      StepLin(r[i - 1], r[i], who[i - 1], acts[i - 1]);
      StepInv(r[i - 1], r[i], who[i - 1], acts[i - 1]);
      StepEffect(r[i - 1], r[i], who[i - 1], acts[i - 1]);
    }
  }

  /** In every run the abstract stack changes only by a push of the pushed value or a pop of the top. */
  lemma RunIsLifo(r: seq<State>, who: seq<nat>, acts: seq<Action>, i: nat)
    requires IsRun(r, who, acts) && SafeSlots(r[0]) && i < |who|
    ensures Inv(r[i]) && Inv(r[i + 1]) && who[i] < |r[i].threads| == |r[i + 1].threads|
    ensures Effect(r[i], r[i + 1], who[i], acts[i])
  {
    RunLin(r, who, acts, i);
    StepEffect(r[i], r[i + 1], who[i], acts[i]);
  }

  /** Thread `p` is inside one and the same call of `pop` in all states from `j` to `i`. */
  ghost predicate SamePop(r: seq<State>, j: nat, i: nat, p: nat) {
    j <= i < |r| && forall k | j <= k <= i :: p < |r[k].threads| && Popping(r[k].threads[p].pc)
  }

  /** The step removes the result from the top, or finds the stack empty if there is none. */
  ghost predicate Applies(s: State, s': State, res: Option<int>)
    requires StackOk(s) && StackOk(s')
  {
    match res
    case None => Contents(s) == []
    case Some(v) => |Contents(s)| > 0 && Contents(s)[0] == v && Contents(s') == Contents(s)[1..]
  }

  /** Step `j` is where the running call of `p` took effect. */
  ghost predicate TakesEffect(r: seq<State>, who: seq<nat>, j: nat, p: nat, res: Option<int>)
    requires j + 1 < |r| && Inv(r[j]) && Inv(r[j + 1]) && j < |who|
  {
    who[j] == p && Applies(r[j], r[j + 1], res)
  }

  function Resolved(c: Claim): Option<int> {
    if c.Took? then c.value else None
  }

  lemma OwnClaimStep(s: State, s': State, p: nat, a: Action)
    requires Step(s, s', p, a) && p < |s'.threads| && Popping(s'.threads[p].pc) && !s'.threads[p].claim.Pending?
    ensures p < |s.threads| && Popping(s.threads[p].pc)
  {
  }

  lemma OtherThread(s: State, s': State, q: nat, a: Action, p: nat)
    requires Step(s, s', q, a) && p < |s'.threads| && p != q
    ensures p < |s.threads| && s.threads[p] == s'.threads[p]
  {
  }

  /** A resolved claim was either resolved by this very step or held before it, within the same call. */
  lemma ClaimStep(s: State, s': State, q: nat, a: Action, p: nat)
    requires LinInv(s) && SafeSlots(s) && Step(s, s', q, a)
    requires LinInv(s') && p < |s'.threads| && Popping(s'.threads[p].pc) && !s'.threads[p].claim.Pending?
    ensures p < |s.threads| && Popping(s.threads[p].pc)
    ensures s.threads[p].claim == s'.threads[p].claim || (q == p && Applies(s, s', Resolved(s'.threads[p].claim)))
  {
    assert ClaimOk(s, q) && ClaimOk(s, p) && ClaimOk(s', p) && q < |s.threads|;
    StepEffect(s, s', q, a);
    hide Inv, LinInv, Contents;
    if q == p {
      OwnClaimStep(s, s', p, a);
    } else {
      OtherThread(s, s', q, a, p);
    }
  }

  lemma SamePopOne(r: seq<State>, j: nat, p: nat)
    requires j + 1 < |r| && p < |r[j].threads| && p < |r[j + 1].threads|
    requires Popping(r[j].threads[p].pc) && Popping(r[j + 1].threads[p].pc)
    ensures SamePop(r, j, j + 1, p)
  {
  }

  lemma SamePopMore(r: seq<State>, j: nat, i: nat, p: nat)
    requires SamePop(r, j, i, p) && i + 1 < |r| && p < |r[i + 1].threads| && Popping(r[i + 1].threads[p].pc)
    ensures SamePop(r, j, i + 1, p)
  {
  }

  lemma {:induction false} ClaimHasStep(r: seq<State>, who: seq<nat>, acts: seq<Action>, i: nat, p: nat)
    returns (j: nat)
    requires IsRun(r, who, acts) && SafeSlots(r[0]) && i < |r| && p < |r[i].threads|
    requires Popping(r[i].threads[p].pc) && !r[i].threads[p].claim.Pending?
    ensures j < i && SamePop(r, j, i, p) && Inv(r[j]) && Inv(r[j + 1])
    ensures TakesEffect(r, who, j, p, Resolved(r[i].threads[p].claim))
    decreases i
  {
    hide Step, Inv, ClaimOk, SafeSlots, Applies, Popping, Resolved, SamePop;
    assert i > 0;
    assert Step(r[i - 1], r[i], who[i - 1], acts[i - 1]);
    hide Init, IsRun;
    RunLin(r, who, acts, i - 1);
    RunLin(r, who, acts, i);
    ClaimStep(r[i - 1], r[i], who[i - 1], acts[i - 1], p);
    if r[i - 1].threads[p].claim == r[i].threads[p].claim {
      j := ClaimHasStep(r, who, acts, i - 1, p);
      SamePopMore(r, j, i - 1, p);
      hide TakesEffect, LinInv;
    } else {
      j := i - 1;
      SamePopOne(r, j, p);
    }
  }

  /** Every result `pop` returns was the top of the stack, or the stack was empty, at a step of that call. */
  lemma PopIsLinearizable(r: seq<State>, who: seq<nat>, acts: seq<Action>, i: nat, p: nat) returns (j: nat)
    requires IsRun(r, who, acts) && SafeSlots(r[0]) && i < |r| && p < |r[i].threads| && r[i].threads[p].pc.PopReturn?
    ensures j < i && SamePop(r, j, i, p) && Inv(r[j]) && Inv(r[j + 1])
    ensures TakesEffect(r, who, j, p, r[i].threads[p].pc.res)
  {
    RunLin(r, who, acts, i);
    assert ClaimOk(r[i], p);
    j := ClaimHasStep(r, who, acts, i, p);
  }
}
