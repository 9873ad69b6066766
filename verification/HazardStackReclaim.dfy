/** Reclamation neither loses nor duplicates a node.

    `PlaceInv` adds to the invariant that the place a cell's role names really holds it: an unpublished or a
    detached node is in the hands of its thread, a retired one in a record, and a record in the shared list,
    in a scanner's private list or in a thread's hands.

    A step keeps it because it lets go of no cell it does not touch (`LetsGo`), keeps the nodes of the records
    it touches (`KeepsNodes`), and puts what it touches into its new place (`Placed`).

    The counter is followed by weights: what a thread owes to it between changing the lists and counting
    (`Debt`), and a scanner that has deleted a node but not yet its record (`Midway`). */
module HazardStackReclaim {
  import HazardScan
  import opened HazardStack
  import opened HazardStackProof
  import opened HazardStackRuns

  // ------------------------------------------------------------ one place for every cell

  /** The place a cell's role names really holds it. */
  ghost predicate RoleOk(s: State, x: Ptr)
    requires x in s.role
  {
    match s.role[x]
    case Fresh(p) => p < |s.threads| && FreshOf(s.threads[p].pc) == x
    case InStack => x in s.chain
    case Detached(p) => p < |s.threads| && DetachedOf(s.threads[p].pc) == x
    case Retired(r) => IsRecord(s, r) && s.heap[r].node == x && r in s.role && !s.role[r].Spent?
    case Shared => x in s.list
    case Held(p) => p < |s.threads| && Holding(s.threads[p].pc) && HeldBy(s.threads[p].pc) == x
    case Rest(p) => p < |s.threads| && x in s.threads[p].rest
    case Spent(p) => p < |s.threads| && s.threads[p].pc.ScanDeleteRec? && s.threads[p].pc.cur == x
  }

  ghost predicate PlaceInv(s: State) {
    Inv(s) && forall x | x in s.role :: RoleOk(s, x)
  }

  /** A step of `p` lets go of no cell outside `touched`. */
  ghost predicate LetsGo(s: State, s': State, p: nat, touched: set<Ptr>)
    requires p < |s.threads| == |s'.threads|
  {
    var t, t' := s.threads[p], s'.threads[p];
    && (forall x | x in s'.role :: x in s.role || x in touched)
    && (forall x | x in s.chain :: x in s'.chain || x in touched)
    && (forall x | x in s.list :: x in s'.list || x in touched)
    && (forall x | x in t.rest :: x in t'.rest || x in touched)
    && (FreshOf(t.pc) == FreshOf(t'.pc) || FreshOf(t.pc) == 0 || FreshOf(t.pc) in touched)
    && (DetachedOf(t.pc) == DetachedOf(t'.pc) || DetachedOf(t.pc) == 0 || DetachedOf(t.pc) in touched)
    && (Holding(t.pc) ==> (Holding(t'.pc) && HeldBy(t'.pc) == HeldBy(t.pc)) || HeldBy(t.pc) in touched)
    && (t.pc.ScanDeleteRec? ==> t'.pc == t.pc || t.pc.cur in touched)
  }

  /** A touched record keeps its node unless the node is touched as well. */
  ghost predicate KeepsNodes(s: State, s': State, touched: set<Ptr>) {
    forall r | r in touched && IsRecord(s, r) && r in s.role && !s.role[r].Spent? ::
      s.heap[r].node in touched
      || (IsRecord(s', r) && s'.heap[r].node == s.heap[r].node && r in s'.role && !s'.role[r].Spent?)
  }

  ghost predicate Placed(s': State, touched: set<Ptr>) {
    forall x | x in touched && x in s'.role :: RoleOk(s', x)
  }

  lemma RoleKept(s: State, s': State, p: nat, touched: set<Ptr>, x: Ptr)
    requires Frame(s, s', p, touched) && LetsGo(s, s', p, touched) && KeepsNodes(s, s', touched)
    requires x in s.heap && x in s.role && x != 0 && x !in touched && RoleOk(s, x)
    ensures x in s'.role && RoleOk(s', x)
  {
  }

  lemma PlaceOf(s: State, x: Ptr)
    requires PlaceInv(s) && x in s.role
    ensures x in s.heap && x != 0 && RoleOk(s, x)
  {
    hide StackOk, ListOk, PcOk, HazardOk, RestOk, RecordOk, RoleOk;
  }

  lemma PlacesKept(s: State, s': State, p: nat, touched: set<Ptr>)
    requires PlaceInv(s) && Inv(s') && Frame(s, s', p, touched)
    requires LetsGo(s, s', p, touched) && KeepsNodes(s, s', touched) && Placed(s', touched)
    ensures PlaceInv(s')
  {
    hide Inv, RoleOk, Frame, KeepsNodes;
    forall x | x in s'.role
      ensures RoleOk(s', x)
    {
      if x !in touched {
        PlaceOf(s, x);
        RoleKept(s, s', p, touched, x);
      }
    }
  }

  /** What a step leaves to show of the places of the cells it touches. */
  ghost predicate Moved(s: State, s': State, p: nat, a: Action) {
    && p < |s.threads| == |s'.threads|
    && LetsGo(s, s', p, Touched(s, p, a)) && KeepsNodes(s, s', Touched(s, p, a)) && Placed(s', Touched(s, p, a))
  }

  lemma TakeMoves(s: State, s': State, p: nat)
    requires Ready(s, p) && DoTake(s, s', p)
    ensures Moved(s, s', p, Take)
  {
    hide HazardOk, RecordOk;
  }

  lemma NewRecordLetsGo(s: State, s': State, p: nat, r: Ptr)
    requires DoNewRecord(s, s', p, r) && PcOk(s, p)
    ensures LetsGo(s, s', p, {DetachedOf(s.threads[p].pc), r})
  {
  }

  lemma NewRecordPlaced(s: State, s': State, p: nat, r: Ptr)
    requires DoNewRecord(s, s', p, r) && PcOk(s, p) && r !in s.role
    ensures KeepsNodes(s, s', {DetachedOf(s.threads[p].pc), r}) && Placed(s', {DetachedOf(s.threads[p].pc), r})
  {
  }

  lemma ReadyForRecord(s: State, p: nat, r: Ptr)
    requires Ready(s, p) && r !in s.heap
    ensures PcOk(s, p) && r !in s.role
  {
    hide PcOk, HazardOk, RecordOk;
  }

  lemma NewRecordMoves(s: State, s': State, p: nat, r: Ptr)
    requires Ready(s, p) && DoNewRecord(s, s', p, r)
    ensures Moved(s, s', p, NewRecord(r))
  {
    hide Ready, PcOk, LetsGo, KeepsNodes, Placed;
    ReadyForRecord(s, p, r);
    NewRecordLetsGo(s, s', p, r);
    NewRecordPlaced(s, s', p, r);
  }

  lemma InsertOkMoves(s: State, s': State, p: nat)
    requires Ready(s, p) && DoInsertOk(s, s', p)
    ensures Moved(s, s', p, InsertOk)
  {
    hide HazardOk, RecordOk;
  }

  lemma DeleteNodeMoves(s: State, s': State, p: nat)
    requires Ready(s, p) && DoDeleteNode(s, s', p)
    ensures Moved(s, s', p, DeleteNode)
  {
    hide HazardOk, RecordOk;
  }

  lemma DeleteRecordMoves(s: State, s': State, p: nat)
    requires Ready(s, p) && DoDeleteRecord(s, s', p)
    ensures Moved(s, s', p, DeleteRecord)
  {
    hide HazardOk, RecordOk;
  }

  lemma InsertFailMoves(s: State, s': State, p: nat)
    requires Ready(s, p) && DoInsertFail(s, s', p) && RoleOk(s, HeldBy(s.threads[p].pc))
    ensures Moved(s, s', p, InsertFail)
  {
    hide HazardOk, RecordOk;
  }

  lemma PopCasOkLetsGo(s: State, s': State, p: nat)
    requires DoPopCasOk(s, s', p) && s.head != 0
    requires forall x | x in s.chain :: x == s.head || x in Tail(s.chain)
    ensures LetsGo(s, s', p, {s.head})
  {
  }

  lemma PopCasOkPlaced(s: State, s': State, p: nat)
    requires DoPopCasOk(s, s', p) && s.head != 0 && IsNode(s, s.head)
    ensures KeepsNodes(s, s', {s.head}) && Placed(s', {s.head})
  {
  }

  lemma PopCasOkMoves(s: State, s': State, p: nat)
    requires Ready(s, p) && StackOk(s) && DoPopCasOk(s, s', p)
    ensures Moved(s, s', p, PopCasOk)
  {
    LinkedTail(s, s.head, s.chain, InStack);
    assert IsNode(s, s.head) && s.head != 0;
    hide PcOk, HazardOk, RecordOk, LetsGo, KeepsNodes, Placed, StackOk, Linked;
    PopCasOkLetsGo(s, s', p);
    PopCasOkPlaced(s, s', p);
  }

  lemma TakeListLetsGo(s: State, s': State, p: nat)
    requires ListOk(s) && DoTakeList(s, s', p) && RestOk(s, p)
    ensures LetsGo(s, s', p, (set x | x in s.list))
  {
    assert s.threads[p].rest == [];
    hide Linked;
  }

  lemma TakeListKeeps(s: State, s': State, p: nat)
    requires ListOk(s) && DoTakeList(s, s', p)
    ensures KeepsNodes(s, s', (set x | x in s.list))
  {
    hide Linked;
  }

  lemma TakeListPlaced(s: State, s': State, p: nat)
    requires DoTakeList(s, s', p) && forall x | x in s.list :: x in s.role
    ensures Placed(s', (set x | x in s.list))
  {
  }

  lemma ListRoles(s: State)
    requires ListOk(s)
    ensures forall x | x in s.list :: x in s.role
  {
  }

  lemma TakeListMoves(s: State, s': State, p: nat)
    requires ListOk(s) && DoTakeList(s, s', p) && RestOk(s, p)
    ensures Moved(s, s', p, TakeList)
  {
    hide ListOk, RestOk, LetsGo, KeepsNodes, Placed;
    ListRoles(s);
    TakeListLetsGo(s, s', p);
    TakeListKeeps(s, s', p);
    TakeListPlaced(s, s', p);
  }

  lemma AdvanceLetsGo(s: State, s': State, p: nat)
    requires DoAdvance(s, s', p)
    requires forall x | x in s.threads[p].rest :: x == s.threads[p].pc.cur || x in Tail(s.threads[p].rest)
    ensures LetsGo(s, s', p, {s.threads[p].pc.cur})
  {
  }

  lemma AdvancePlaced(s: State, s': State, p: nat)
    requires Shape(s) && DoAdvance(s, s', p)
    ensures KeepsNodes(s, s', {s.threads[p].pc.cur}) && Placed(s', {s.threads[p].pc.cur})
  {
  }

  lemma FrontOrTail(s: State, p: nat)
    requires p < |s.threads| && RestOk(s, p) && Frontier(s.threads[p].pc) != 0
    ensures forall x | x in s.threads[p].rest :: x == Frontier(s.threads[p].pc) || x in Tail(s.threads[p].rest)
  {
    LinkedTail(s, Frontier(s.threads[p].pc), s.threads[p].rest, Rest(p));
  }

  lemma AdvanceMoves(s: State, s': State, p: nat)
    requires Shape(s) && p < |s.threads| && RestOk(s, p) && DoAdvance(s, s', p)
    ensures Moved(s, s', p, Advance)
  {
    hide RestOk, Shape, LetsGo, KeepsNodes, Placed;
    FrontOrTail(s, p);
    AdvanceLetsGo(s, s', p);
    AdvancePlaced(s, s', p);
  }

  lemma HeldRole(s: State, p: nat)
    requires PlaceInv(s) && p < |s.threads| && Holding(s.threads[p].pc)
    ensures HeldBy(s.threads[p].pc) in s.role && RoleOk(s, HeldBy(s.threads[p].pc))
  {
    assert PcOk(s, p);
    hide StackOk, ListOk, RestOk, RoleOk;
  }

  /** The moving thread owns the record it works on. */
  ghost predicate HoldsRole(s: State, p: nat)
    requires p < |s.threads|
  {
    Holding(s.threads[p].pc) ==> HeldBy(s.threads[p].pc) in s.role && RoleOk(s, HeldBy(s.threads[p].pc))
  }

  lemma PushMoves(s: State, s': State, p: nat, a: Action)
    requires Ready(s, p) && Step(s, s', p, a) && PushStep(a)
    ensures Moved(s, s', p, a)
  {
    hide HazardOk, RecordOk;
  }

  lemma OwnerMoves(s: State, s': State, p: nat, a: Action)
    requires Ready(s, p) && HoldsRole(s, p) && Step(s, s', p, a) && OwnerStep(a)
    ensures Moved(s, s', p, a)
  {
    hide Ready, Moved, RoleOk;
    match a
    case Take => TakeMoves(s, s', p);
    case NewRecord(r) => NewRecordMoves(s, s', p, r);
    case InsertOk => InsertOkMoves(s, s', p);
    case InsertFail => InsertFailMoves(s, s', p);
  }

  lemma ScanMoves(s: State, s': State, p: nat, a: Action)
    requires Ready(s, p) && ListOk(s) && RestOk(s, p) && Step(s, s', p, a) && ScanStep(a)
    ensures Moved(s, s', p, a)
  {
    assert Shape(s);
    hide Ready, Moved, ListOk, RestOk, Shape;
    match a
    case TakeList => TakeListMoves(s, s', p);
    case Advance => AdvanceMoves(s, s', p);
    case DeleteNode => DeleteNodeMoves(s, s', p);
    case DeleteRecord => DeleteRecordMoves(s, s', p);
  }

  lemma StepMoves(s: State, s': State, p: nat, a: Action)
    requires PlaceInv(s) && Step(s, s', p, a) && Writes(a)
    ensures Moved(s, s', p, a)
  {
    hide Inv, Ready, StackOk, ListOk, RestOk, Moved, Shape, RoleOk;
    InvReady(s, p);
    if Holding(s.threads[p].pc) {
      HeldRole(s, p);
    }
    assert HoldsRole(s, p);
    hide PlaceInv, HoldsRole;
    if PushStep(a) {
      PushMoves(s, s', p, a);
    } else if OwnerStep(a) {
      OwnerMoves(s, s', p, a);
    } else if ScanStep(a) {
      ScanMoves(s, s', p, a);
    } else {
      PopCasOkMoves(s, s', p);
    }
  }

  lemma PlaceIsInv(s: State)
    requires PlaceInv(s)
    ensures Inv(s)
  {
    hide Inv;
  }

  lemma PopQuietLetsGo(s: State, s': State, p: nat, a: Action)
    requires Step(s, s', p, a) && (PopQuiet(a) || a.Reload?)
    ensures p < |s.threads| == |s'.threads| && LetsGo(s, s', p, {})
  {
  }

  lemma ScanQuietLetsGo(s: State, s': State, p: nat, a: Action)
    requires Step(s, s', p, a) && ScanQuiet(a)
    ensures p < |s.threads| == |s'.threads| && LetsGo(s, s', p, {})
  {
  }

  lemma CountQuietLetsGo(s: State, s': State, p: nat, a: Action)
    requires Step(s, s', p, a) && CountQuiet(a)
    ensures p < |s.threads| == |s'.threads| && LetsGo(s, s', p, {})
  {
  }

  lemma QuietLetsGo(s: State, s': State, p: nat, a: Action)
    requires Step(s, s', p, a) && !Writes(a)
    ensures p < |s.threads| == |s'.threads| && LetsGo(s, s', p, {})
  {
    hide LetsGo, Step;
    if CountQuiet(a) {
      CountQuietLetsGo(s, s', p, a);
    } else if ScanQuiet(a) {
      ScanQuietLetsGo(s, s', p, a);
    } else {
      PopQuietLetsGo(s, s', p, a);
    }
  }

  lemma QuietPlaces(s: State, s': State, p: nat, a: Action)
    requires PlaceInv(s) && Inv(s') && Step(s, s', p, a) && !Writes(a)
    ensures PlaceInv(s')
  {
    hide Inv, Step, LetsGo, Frame, RoleOk, PlaceInv;
    QuietFrame(s, s', p, a);
    QuietLetsGo(s, s', p, a);
    PlacesKept(s, s', p, {});
  }

  lemma StepPlaces(s: State, s': State, p: nat, a: Action)
    requires PlaceInv(s) && SafeSlots(s) && Step(s, s', p, a)
    ensures PlaceInv(s')
  {
    StepInv(s, s', p, a);
    hide PlaceInv, Inv, Step, Touched, Frame, TouchedOk, LetsGo, KeepsNodes, Placed;
    if Writes(a) {
      PlaceIsInv(s);
      StepTouches(s, s', p, a);
      StepMoves(s, s', p, a);
      PlacesKept(s, s', p, Touched(s, p, a));
    } else {
      QuietPlaces(s, s', p, a);
    }
  }

  lemma {:induction false} RunPlaces(r: seq<State>, who: seq<nat>, acts: seq<Action>, i: nat)
    requires IsRun(r, who, acts) && SafeSlots(r[0]) && i < |r|
    ensures PlaceInv(r[i]) && SafeSlots(r[i])
  {
    if i == 0 {
      InitInv(r[0]);
    } else {
      hide Step, Init, Inv;
      RunPlaces(r, who, acts, i - 1);
      assert Step(r[i - 1], r[i], who[i - 1], acts[i - 1]);
      StepPlaces(r[i - 1], r[i], who[i - 1], acts[i - 1]);
      StepInv(r[i - 1], r[i], who[i - 1], acts[i - 1]);
    }
  }

  /** The places a reclaim record can be in. */
  datatype Place = InList | InRest(p: nat) | InHand(p: nat)

  ghost predicate Sits(s: State, r: Ptr, place: Place) {
    match place
    case InList => r in s.list
    case InRest(p) => p < |s.threads| && r in s.threads[p].rest
    case InHand(p) => p < |s.threads| && HeldBy(s.threads[p].pc) == r
  }

  /** In every reachable state a record is in the shared list, in one scanner's private list or in one
      thread's hands, and in no two of these at once. */
  lemma RecordHasOnePlace(r: seq<State>, who: seq<nat>, acts: seq<Action>, i: nat, rec: Ptr) returns (place: Place)
    requires IsRun(r, who, acts) && SafeSlots(r[0]) && i < |r| && IsRecord(r[i], rec)
    ensures Sits(r[i], rec, place)
    ensures forall other | Sits(r[i], rec, other) :: other == place
  {
    var s := r[i];
    RunPlaces(r, who, acts, i);
    assert RecordOk(s, rec) && RoleOk(s, rec);
    place := match s.role[rec]
             case Shared => InList
             case Rest(p) => InRest(p)
             case Held(p) => InHand(p)
             case Spent(p) => InHand(p);
    forall other | Sits(s, rec, other)
      ensures other == place
    {
      PlaceRole(s, rec, other);
    }
  }

  /** Being in a place fixes the role. */
  lemma PlaceRole(s: State, rec: Ptr, place: Place)
    requires Inv(s) && IsRecord(s, rec) && rec in s.role && Sits(s, rec, place)
    ensures match place
            case InList => s.role[rec] == Shared
            case InRest(p) => s.role[rec] == Rest(p)
            case InHand(p) => s.role[rec] == Held(p) || s.role[rec] == Spent(p)
  {
    if !place.InList? {
      assert PcOk(s, place.p) && RestOk(s, place.p);
    }
  }

  /** A retired node that is not deleted yet waits in exactly one record. */
  lemma RetiredHasOneRecord(r: seq<State>, who: seq<nat>, acts: seq<Action>, i: nat, x: Ptr) returns (rec: Ptr)
    requires IsRun(r, who, acts) && SafeSlots(r[0]) && i < |r|
    requires x in r[i].role && r[i].role[x].Retired?
    ensures IsRecord(r[i], rec) && rec in r[i].role && !r[i].role[rec].Spent? && r[i].heap[rec].node == x
    ensures forall other | IsRecord(r[i], other) && other in r[i].role && !r[i].role[other].Spent? ::
              r[i].heap[other].node == x ==> other == rec
  {
    RunPlaces(r, who, acts, i);
    assert RoleOk(r[i], x);
    rec := r[i].role[x].rec;
    assert forall other | IsRecord(r[i], other) :: RecordOk(r[i], other);
  }

  /** The nodes that wait in the shared list, in list order. */
  ghost function ListedNodes(s: State): (nodes: seq<Ptr>)
    requires ListOk(s)
    ensures |nodes| == |s.list| && forall i | 0 <= i < |nodes| :: nodes[i] == s.heap[s.list[i]].node
  {
    seq(|s.list|, i requires 0 <= i < |s.list| => s.heap[s.list[i]].node)
  }

  lemma ListedOnce(s: State)
    requires Inv(s)
    ensures HazardScan.Distinct(ListedNodes(s))
  {
    var nodes := ListedNodes(s);
    forall i, j | 0 <= i < j < |nodes|
      ensures nodes[i] != nodes[j]
    {
      assert RecordOk(s, s.list[i]) && RecordOk(s, s.list[j]);
    }
  }

  /** A pass begun in any reachable state that nobody disturbs leaves at most one record per scanned slot. */
  lemma UndisturbedPassBound(r: seq<State>, who: seq<nat>, acts: seq<Action>, i: nat)
    requires IsRun(r, who, acts) && SafeSlots(r[0]) && i < |r|
    ensures ListOk(r[i])
    ensures |HazardScan.Reversed(HazardScan.Kept(r[i].hazard, r[i].start, ListedNodes(r[i])))| <= r[i].max - r[i].start
  {
    RunInv(r, who, acts, i);
    ListedOnce(r[i]);
    HazardScan.PassBound(r[i].hazard, r[i].start, ListedNodes(r[i]));
  }

  // ------------------------------------------------------------ counting

  ghost function RecordsOf(heap: map<Ptr, Cell>): set<Ptr> { set r | r in heap && heap[r].Record? }

  ghost function Records(s: State): set<Ptr> { RecordsOf(s.heap) }

  lemma RecordsUpdate(heap: map<Ptr, Cell>, x: Ptr, c: Cell)
    requires x in heap ==> heap[x].Record? == c.Record?
    ensures RecordsOf(heap[x := c]) == RecordsOf(heap) + if x !in heap && c.Record? then {x} else {}
  {
  }

  lemma RecordsRemove(heap: map<Ptr, Cell>, x: Ptr)
    requires x in heap
    ensures RecordsOf(heap - {x}) == RecordsOf(heap) - {x}
    ensures heap[x].Record? <==> x in RecordsOf(heap)
  {
  }

  /** What a thread between a list operation and its counter update owes to the counter. */
  function Debt(pc: Pc): int {
    match pc
    case RetireInsert(_, _) => -1
    case RetireCount(_) => -1
    case ScanCount(_, _) => 1
    case _ => 0
  }

  /** A thread that has deleted a node and still has to delete its record. */
  function Midway(pc: Pc): int { if pc.ScanDeleteRec? then 1 else 0 }

  function Total(ts: seq<Thread>, weight: Pc -> int): int {
    if |ts| == 0 then 0 else weight(ts[0].pc) + Total(ts[1..], weight)
  }

  lemma {:induction false} TotalUpdate(ts: seq<Thread>, weight: Pc -> int, p: nat, t: Thread)
    requires p < |ts|
    ensures Total(ts[p := t], weight) == Total(ts, weight) - weight(ts[p].pc) + weight(t.pc)
  {
    var us := ts[p := t];
    if p == 0 {
      assert us[1..] == ts[1..];
    } else {
      assert us[1..] == ts[1..][p - 1 := t];
      TotalUpdate(ts[1..], weight, p - 1, t);
    }
  }

  lemma {:induction false} TotalIdle(ts: seq<Thread>, weight: Pc -> int)
    requires forall p | 0 <= p < |ts| :: weight(ts[p].pc) == 0
    ensures Total(ts, weight) == 0
  {
    if |ts| > 0 {
      TotalIdle(ts[1..], weight);
    }
  }

  /** A step moves the counter and the weights of its thread as far as it makes or deletes a cell. */
  ghost predicate Weighs(s: State, s': State, p: nat, a: Action) {
    && p < |s.threads| == |s'.threads| && s'.threads == s.threads[p := s'.threads[p]]
    && s'.cnt + Debt(s.threads[p].pc) - Debt(s'.threads[p].pc)
       == s.cnt + (if a.NewRecord? then 1 else if a.DeleteRecord? then -1 else 0)
    && Midway(s'.threads[p].pc) - Midway(s.threads[p].pc)
       == (if a.DeleteNode? then 1 else if a.DeleteRecord? then -1 else 0)
  }

  lemma MakeWeighs(s: State, s': State, p: nat, a: Action)
    requires Step(s, s', p, a) && (PushStep(a) || OwnerStep(a))
    ensures Weighs(s, s', p, a)
  {
  }

  lemma ScanWeighs(s: State, s': State, p: nat, a: Action)
    requires Step(s, s', p, a) && (ScanStep(a) || a.PopCasOk?)
    ensures Weighs(s, s', p, a)
  {
  }

  lemma QuietWeighs(s: State, s': State, p: nat, a: Action)
    requires Step(s, s', p, a) && !Writes(a)
    ensures Weighs(s, s', p, a)
  {
  }

  lemma StepWeights(s: State, s': State, p: nat, a: Action)
    requires Step(s, s', p, a)
    ensures Weighs(s, s', p, a)
  {
    hide Step, Weighs;
    if PushStep(a) || OwnerStep(a) {
      MakeWeighs(s, s', p, a);
    } else if ScanStep(a) || a.PopCasOk? {
      ScanWeighs(s, s', p, a);
    } else {
      QuietWeighs(s, s', p, a);
    }
  }

  lemma NewRecordCounted(s: State, s': State, p: nat, r: Ptr)
    requires DoNewRecord(s, s', p, r)
    ensures |Records(s')| == |Records(s)| + 1
  {
    RecordsUpdate(s.heap, r, s'.heap[r]);
  }

  lemma StepRecords(s: State, s': State, p: nat, a: Action)
    requires Step(s, s', p, a)
    ensures |Records(s')| == |Records(s)| + (if a.NewRecord? then 1 else if a.DeleteRecord? then -1 else 0)
  {
    hide RecordsOf;
    var pc := s.threads[p].pc;
    match a
    case NewNode(v, n, garbage) => RecordsUpdate(s.heap, n, s'.heap[n]);
    case LoadIntoNext => RecordsUpdate(s.heap, pc.n, s'.heap[pc.n]);
    case PushCasFail => RecordsUpdate(s.heap, pc.n, s'.heap[pc.n]);
    case Take => RecordsUpdate(s.heap, pc.hd, s'.heap[pc.hd]);
    case NewRecord(r) => NewRecordCounted(s, s', p, r);
    case InsertFail => RecordsUpdate(s.heap, HeldBy(pc), s'.heap[HeldBy(pc)]);
    case DeleteNode => RecordsRemove(s.heap, s.heap[pc.cur].node);
    case DeleteRecord => RecordsRemove(s.heap, pc.cur);
    case _ =>
  }

  predicate IsNewRecord(a: Action) { a.NewRecord? }

  predicate IsDeleteNode(a: Action) { a.DeleteNode? }

  /** How many of the first `i` steps are of one kind. */
  function Tally(acts: seq<Action>, i: nat, kind: Action -> bool): nat
    requires i <= |acts|
  {
    if i == 0 then 0 else Tally(acts, i - 1, kind) + if kind(acts[i - 1]) then 1 else 0
  }

  lemma StepBalance(s: State, s': State, p: nat, a: Action)
    requires Step(s, s', p, a)
    ensures s'.cnt - |Records(s')| - Total(s'.threads, Debt) == s.cnt - |Records(s)| - Total(s.threads, Debt)
    ensures (|Records(s')| - Total(s'.threads, Midway)) - (|Records(s)| - Total(s.threads, Midway))
            == (if a.NewRecord? then 1 else if a.DeleteNode? then -1 else 0)
  {
    StepWeights(s, s', p, a);
    StepRecords(s, s', p, a);
    hide Step, Records;
    TotalUpdate(s.threads, Debt, p, s'.threads[p]);
    TotalUpdate(s.threads, Midway, p, s'.threads[p]);
  }

  /** `reclaim_cnt` counts the records, up to what threads in mid-update owe it; and every node retired
      so far has been deleted once or waits in a record. */
  lemma {:induction false} ReclamationConserves(r: seq<State>, who: seq<nat>, acts: seq<Action>, i: nat)
    requires IsRun(r, who, acts) && i < |r|
    ensures r[i].cnt == |Records(r[i])| + Total(r[i].threads, Debt)
    ensures Tally(acts, i, IsNewRecord)
            == Tally(acts, i, IsDeleteNode) + |Records(r[i])| - Total(r[i].threads, Midway)
  {
    if i == 0 {
      TotalIdle(r[0].threads, Debt);
      TotalIdle(r[0].threads, Midway);
      assert Records(r[0]) == {};
    } else {
      hide Step, Records, Total;
      assert Step(r[i - 1], r[i], who[i - 1], acts[i - 1]);
      hide IsRun;
      StepBalance(r[i - 1], r[i], who[i - 1], acts[i - 1]);
      ReclamationConserves(r, who, acts, i - 1);
    }
  }
}
