/** When a pop scans for retired nodes, what the scan keeps, and when nothing is kept. */
module HazardStackSweep {
  import opened HazardStack
  import opened HazardStackProof
  import opened HazardStackRuns
  import opened HazardStackLifo
  import opened HazardStackReclaim

  // ------------------------------------------------------------ when a pop scans

  predicate Scanning(pc: Pc) {
    pc.ScanNext? || pc.ScanSlot? || pc.ScanReinsert? || pc.ScanDeleteNode? || pc.ScanDeleteRec? || pc.ScanCount?
  }

  /** Past the decision whether to scan. */
  predicate Decided(pc: Pc) { pc.ScanTake? || Scanning(pc) || (pc.PopReturn? && pc.res.Some?) }

  /** One step towards the end of a pop that has a value. */
  ghost predicate DecidesOrKeeps(s: State, s': State, q: nat, a: Action, p: nat) {
    p < |s'.threads| && Decided(s'.threads[p].pc) ==>
      && p < |s.threads| && Popping(s.threads[p].pc)
      && (|| (q == p && a.Decide? && (s'.threads[p].pc.ScanTake? <==> s.cnt >= s.limit) && !Scanning(s'.threads[p].pc))
          || (q == p && a.TakeList? && s.threads[p].pc.ScanTake? && Scanning(s'.threads[p].pc))
          || (!(q == p && (a.Decide? || a.TakeList?)) && Decided(s.threads[p].pc)
              && (s'.threads[p].pc.ScanTake? <==> s.threads[p].pc.ScanTake?)))
  }

  lemma ScanDecides(s: State, s': State, p: nat, a: Action)
    requires Step(s, s', p, a) && (ScanStep(a) || a.InsertOk? || a.InsertFail?)
    ensures DecidesOrKeeps(s, s', p, a, p)
  {
  }

  lemma QuietDecides(s: State, s': State, p: nat, a: Action)
    requires Step(s, s', p, a) && QuietStep(a)
    ensures DecidesOrKeeps(s, s', p, a, p)
  {
  }

  lemma StartDecides(s: State, s': State, p: nat, a: Action)
    requires p < |s.threads| && ClaimOk(s, p) && Step(s, s', p, a)
    requires !ScanStep(a) && !QuietStep(a) && !a.InsertOk? && !a.InsertFail?
    ensures DecidesOrKeeps(s, s', p, a, p)
  {
  }

  lemma StepDecides(s: State, s': State, q: nat, a: Action, p: nat)
    requires q < |s.threads| && ClaimOk(s, q) && Step(s, s', q, a)
    ensures DecidesOrKeeps(s, s', q, a, p)
  {
    hide Step, Popping, Scanning, Decided, ClaimOk;
    if p != q {
      if p < |s'.threads| {
        OtherThread(s, s', q, a, p);
        DecidedPops(s, p);
      }
    } else if ScanStep(a) || a.InsertOk? || a.InsertFail? {
      ScanDecides(s, s', p, a);
    } else if QuietStep(a) {
      QuietDecides(s, s', p, a);
    } else {
      StartDecides(s, s', p, a);
    }
  }

  lemma Start(s: State, p: nat)
    requires Init(s) && p < |s.threads|
    ensures !Decided(s.threads[p].pc)
  {
  }

  /** `p` has taken the list between steps `j` and `i`. */
  ghost predicate TookList(who: seq<nat>, acts: seq<Action>, j: nat, i: nat, p: nat)
    requires i <= |who| == |acts|
  {
    exists k | j <= k < i :: who[k] == p && acts[k].TakeList?
  }

  lemma NotTaken(who: seq<nat>, acts: seq<Action>, j: nat, p: nat)
    requires j <= |who| == |acts|
    ensures !TookList(who, acts, j, j, p)
  {
  }

  lemma TookMore(who: seq<nat>, acts: seq<Action>, j: nat, i: nat, p: nat)
    requires j < i <= |who| == |acts|
    ensures TookList(who, acts, j, i, p)
            <==> TookList(who, acts, j, i - 1, p) || (who[i - 1] == p && acts[i - 1].TakeList?)
  {
  }

  lemma {:induction false} DecidedAt(r: seq<State>, who: seq<nat>, acts: seq<Action>, i: nat, p: nat) returns (j: nat)
    requires IsRun(r, who, acts) && SafeSlots(r[0]) && i < |r| && p < |r[i].threads| && Decided(r[i].threads[p].pc)
    ensures j < i && SamePop(r, j, i, p) && who[j] == p && acts[j].Decide?
    ensures r[i].threads[p].pc.ScanTake? ==> r[j].cnt >= r[j].limit && !TookList(who, acts, j, i, p)
    ensures !r[i].threads[p].pc.ScanTake? ==> (r[j].cnt >= r[j].limit <==> TookList(who, acts, j, i, p))
    decreases i
  {
    hide Step, Init, Inv, ClaimOk, Decided, Popping, Scanning, SafeSlots, SamePop, TookList;
    if i == 0 {
      Start(r[0], p);
      assert false;
    }
    var s, s', q, a := r[i - 1], r[i], who[i - 1], acts[i - 1];
    assert Step(s, s', q, a);
    RunLin(r, who, acts, i - 1);
    StepThread(s, s', q, a);
    StepDecides(s, s', q, a, p);
    DecidedPops(s', p);
    DecidedPops(s, p);
    if q == p && a.Decide? {
      j := i - 1;
      SamePopOne(r, j, p);
      NotTaken(who, acts, j, p);
    } else {
      j := DecidedAt(r, who, acts, i - 1, p);
      SamePopMore(r, j, i - 1, p);
    }
    TookMore(who, acts, j, i, p);
  }

  lemma DecidedPops(s: State, p: nat)
    requires p < |s.threads|
    ensures Decided(s.threads[p].pc) ==> Popping(s.threads[p].pc)
    ensures s.threads[p].pc.ScanTake? ==> Decided(s.threads[p].pc) && !Scanning(s.threads[p].pc)
  {
  }

  /** A pop that returns a value has decided, in that very call, whether to scan, and has scanned exactly if
      the counter had reached the threshold. */
  lemma ScansIff(r: seq<State>, who: seq<nat>, acts: seq<Action>, i: nat, p: nat) returns (j: nat)
    requires IsRun(r, who, acts) && SafeSlots(r[0]) && i < |r| && p < |r[i].threads|
    requires r[i].threads[p].pc.PopReturn? && r[i].threads[p].pc.res.Some?
    ensures j < i && SamePop(r, j, i, p) && who[j] == p && acts[j].Decide?
    ensures r[j].cnt >= r[j].limit <==> TookList(who, acts, j, i, p)
  {
    j := DecidedAt(r, who, acts, i, p);
  }

  // ------------------------------------------------------------ what a scan keeps

  /** A record goes back to the list only because a scanned slot publishes its node at that step. */
  lemma KeptIsPublished(s: State, s': State, p: nat, a: Action)
    requires Step(s, s', p, a) && p < |s.threads| && PcOk(s, p) && s.threads[p].pc.ScanSlot?
    requires s'.threads[p].pc.ScanReinsert?
    ensures HazardScan.Outstanding(s.hazard, s.start, s.threads[p].pc.node)
    ensures IsRecord(s, s'.threads[p].pc.cur) && s.heap[s'.threads[p].pc.cur].node == s.threads[p].pc.node
  {
  }

  // ------------------------------------------------------------ when nothing is kept

  /** Between loading a head to publish it and clearing the slot again. */
  predicate Publishing(pc: Pc) {
    pc.PopPublish? || pc.PopReload? || pc.PopReadNext? || pc.PopCas? || pc.PopClear?
  }

  ghost predicate SlotOk(s: State, q: nat)
    requires q < |s.hazard|
  {
    s.hazard[q] != 0 ==> q < |s.threads| && Publishing(s.threads[q].pc)
  }

  lemma MoverSlot(s: State, s': State, p: nat, a: Action)
    requires Step(s, s', p, a) && (p < |s.hazard| ==> SlotOk(s, p))
    ensures |s'.hazard| == |s.hazard| && (p < |s.hazard| ==> SlotOk(s', p))
  {
  }

  lemma OtherSlot(s: State, s': State, p: nat, a: Action, q: nat)
    requires Step(s, s', p, a) && q != p && q < |s.hazard| && SlotOk(s, q)
    ensures q < |s'.hazard| && SlotOk(s', q)
  {
  }

  lemma {:induction false} RunSlots(r: seq<State>, who: seq<nat>, acts: seq<Action>, i: nat, q: nat)
    requires IsRun(r, who, acts) && i < |r| && q < |r[0].hazard|
    ensures |r[i].hazard| == |r[0].hazard| && SlotOk(r[i], q)
    decreases i
  {
    hide Step, SlotOk;
    if i == 0 {
      FreshSlot(r[0], q);
    } else {
      hide Init;
      RunSlots(r, who, acts, i - 1, q);
      var s, s', p, a := r[i - 1], r[i], who[i - 1], acts[i - 1];
      assert Step(s, s', p, a);
      if p < |s.hazard| {
        RunSlots(r, who, acts, i - 1, p);
      }
      MoverSlot(s, s', p, a);
      if q != p {
        OtherSlot(s, s', p, a, q);
      }
    }
  }

  lemma FreshSlot(s: State, q: nat)
    requires Init(s) && q < |s.hazard|
    ensures SlotOk(s, q)
  {
  }

  /** A slot is set only while its popper is between loading the head and clearing the slot. */
  lemma SlotsAreCleared(r: seq<State>, who: seq<nat>, acts: seq<Action>, i: nat, q: nat)
    requires IsRun(r, who, acts) && i < |r| && q < |r[i].hazard| && r[i].hazard[q] != 0
    ensures q < |r[i].threads| && Publishing(r[i].threads[q].pc)
  {
    hide Step, Init;
    SlotCount(r, who, acts, i);
    RunSlots(r, who, acts, i, q);
  }

  lemma {:induction false} SlotCount(r: seq<State>, who: seq<nat>, acts: seq<Action>, i: nat)
    requires IsRun(r, who, acts) && i < |r|
    ensures |r[i].hazard| == |r[0].hazard|
  {
    hide Init;
    if i > 0 {
      SlotCount(r, who, acts, i - 1);
      assert Step(r[i - 1], r[i], who[i - 1], acts[i - 1]);
    }
  }

  lemma ListedIsNode(s: State, x: Ptr)
    requires Inv(s) && x in ListedNodes(s)
    ensures x != 0
  {
    var i :| 0 <= i < |s.list| && ListedNodes(s)[i] == x;
    assert RecordOk(s, s.list[i]);
  }

  /** So a pass that nobody disturbs, begun when no popper is there, deletes every retired node. */
  lemma QuietPassKeepsNothing(r: seq<State>, who: seq<nat>, acts: seq<Action>, i: nat)
    requires IsRun(r, who, acts) && SafeSlots(r[0]) && i < |r|
    requires forall q | 0 <= q < |r[i].threads| :: !Publishing(r[i].threads[q].pc)
    ensures ListOk(r[i]) && HazardScan.Kept(r[i].hazard, r[i].start, ListedNodes(r[i])) == []
  {
    var s := r[i];
    hide Init, Step, Publishing;
    RunInv(r, who, acts, i);
    var kept := HazardScan.Kept(s.hazard, s.start, ListedNodes(s));
    if kept != [] {
      var x := kept[0];
      assert x in kept;
      HazardScan.PassSelects(s.hazard, s.start, ListedNodes(s), x);
      ListedIsNode(s, x);
      var q :| s.start <= q < |s.hazard| && s.hazard[q] == x;
      SlotsAreCleared(r, who, acts, i, q);
      assert false;
    }
  }
}
