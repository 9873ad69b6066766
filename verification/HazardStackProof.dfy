/** Every step of the stack keeps `Inv`.

    The proof of a step has four parts.  `Touches`: the cells the step writes, makes, deletes or hands on
    are `Touched`, the owners of those cells are among them, and all other cells and threads stay as they
    are.  `Own`: what the moving thread relies on next holds, and no node that another thread has validated
    is lost to it.  `ListsOk`: the stack, the shared reclaim list and the mover's private list are linked as
    recorded.  `FrameInv` then puts the invariant together again, since all other threads keep what they
    rely on.

    A step that writes no cell is `Quiet` and touches nothing.  The step that decides whether the hazard
    pointers do their work is the validation of a head that is still in the stack: no scanner works on such
    a node (`Unscanned`), and a scanner that starts on it later will come by the popper's slot. */
module HazardStackProof {
  import opened HazardStack

  lemma InitInv(s: State)
    requires Init(s)
    ensures Inv(s)
  {
  }

  // ------------------------------------------------------------ frames

  /** Roles that name a thread other than `p`. */
  predicate Foreign(r: Role, p: nat) {
    match r
    case Fresh(q) => q != p
    case Detached(q) => q != p
    case Held(q) => q != p
    case Rest(q) => q != p
    case Spent(q) => q != p
    case _ => false
  }

  /** Thread `p` moves and writes no cell or role outside `touched`. */
  ghost predicate Frame(s: State, s': State, p: nat, touched: set<Ptr>) {
    && p < |s.threads| == |s'.threads|
    && (forall q | 0 <= q < |s.threads| && q != p :: s'.threads[q] == s.threads[q])
    && |s'.hazard| == |s.hazard|
    && (forall q | 0 <= q < |s.hazard| && q != p :: s'.hazard[q] == s.hazard[q])
    && s'.start == s.start && s'.max == s.max && s'.poppers == s.poppers
    && (forall x | x in s.heap && x in s.role && x !in touched ::
          x in s'.heap && s'.heap[x] == s.heap[x] && x in s'.role && s'.role[x] == s.role[x])
    && (forall x | x in touched && x in s.role :: !Foreign(s.role[x], p))
  }

  /** `x` is still a published node with the same successor. */
  ghost predicate Survives(s: State, s': State, x: Ptr) {
    IsNode(s, x) && IsNode(s', x) && s'.heap[x].next == s.heap[x].next && x in s'.role && !s'.role[x].Fresh?
  }

  lemma LinkedFrame(s: State, s': State, h: Ptr, c: seq<Ptr>, r: Role, p: nat, touched: set<Ptr>)
    requires Linked(s, h, c, r) && Frame(s, s', p, touched)
    requires forall i | 0 <= i < |c| :: c[i] !in touched
    ensures Linked(s', h, c, r)
    ensures forall i | 0 <= i < |c| :: c[i] in s'.heap && s'.heap[c[i]] == s.heap[c[i]]
  {
  }

  lemma LinkedRelabel(s: State, s': State, h: Ptr, c: seq<Ptr>, r: Role, r': Role)
    requires Linked(s, h, c, r) && s'.heap == s.heap
    requires forall i | 0 <= i < |c| :: c[i] in s'.role && s'.role[c[i]] == r'
    ensures Linked(s', h, c, r')
  {
  }

  lemma LinkedCons(s: State, n: Ptr, h: Ptr, c: seq<Ptr>, r: Role)
    requires Linked(s, h, c, r)
    requires n != 0 && n in s.heap && n in s.role && s.role[n] == r && s.heap[n].next == h && n !in c
    ensures Linked(s, n, [n] + c, r)
  {
    var d := [n] + c;
    assert forall i | 0 < i < |d| :: d[i] == c[i - 1];
    forall i, j | 0 <= i && j == i + 1 && j < |d|
      ensures s.heap[d[i]].next == d[j]
    {
      if i > 0 {
        assert s.heap[c[i - 1]].next == c[j - 1];
      }
    }
  }

  lemma LinkedTail(s: State, h: Ptr, c: seq<Ptr>, r: Role)
    requires Linked(s, h, c, r) && h != 0
    ensures |c| > 0 && c[0] == h && h in s.heap && h !in Tail(c)
    ensures Linked(s, s.heap[h].next, Tail(c), r)
    ensures forall x | x in c :: x == h || x in Tail(c)
  {
    var d := Tail(c);
    assert c == [c[0]] + d;
    assert forall i | 0 <= i < |d| :: d[i] == c[i + 1];
    assert |c| > 1 ==> s.heap[c[0]].next == c[1];
    forall i, j | 0 <= i && j == i + 1 && j < |d|
      ensures s.heap[d[i]].next == d[j]
    {
      assert s.heap[c[i + 1]].next == c[j + 1];
    }
  }

  lemma HazardKept(s: State, s': State, p: nat, touched: set<Ptr>, q: nat)
    requires Inv(s) && Frame(s, s', p, touched)
    requires q < |s.threads| && q != p
    requires Validated(s.threads[q].pc) && Protected(s, q, s.threads[q].pc.hd) ==>
               ScanBehind(s', p, q, s.threads[q].pc.hd) && Survives(s, s', s.threads[q].pc.hd)
    ensures HazardOk(s', q)
  {
    assert HazardOk(s, q);
    if Validated(s.threads[q].pc) {
      var x := s.threads[q].pc.hd;
      forall r | 0 <= r < |s'.threads|
        ensures ScanBehind(s', r, q, x)
      {
        if r != p {
          assert ScanBehind(s, r, q, x) && PcOk(s, r);
        }
      }
    }
  }

  lemma PcKept(s: State, s': State, p: nat, touched: set<Ptr>, q: nat)
    requires Inv(s) && Frame(s, s', p, touched)
    requires q < |s.threads| && q != p
    ensures PcOk(s', q) && RestOk(s', q)
  {
    assert PcOk(s, q) && RestOk(s, q);
    LinkedFrame(s, s', Frontier(s.threads[q].pc), s.threads[q].rest, Rest(q), p, touched);
  }

  /** The owners of the touched cells are touched too, and what is left of those cells is in order. */
  ghost predicate TouchedOk(s: State, s': State, touched: set<Ptr>) {
    && s'.role.Keys == s'.heap.Keys && 0 !in s'.heap
    && (forall x | x in s'.heap :: x in s.heap || x in touched)
    && (forall x | x in touched && x in s.role && s.role[x].Retired? :: s.role[x].rec in touched)
    && (forall r | r in touched && r in s'.heap && r in s'.role :: RecordOk(s', r))
  }

  /** Every node another thread has validated is spared by the step. */
  ghost predicate Spares(s: State, s': State, p: nat)
    requires p < |s.threads| == |s'.threads|
  {
    forall q | 0 <= q < |s.threads| && q != p && Validated(s.threads[q].pc)
               && Protected(s, q, s.threads[q].pc.hd) && ScanBehind(s, p, q, s.threads[q].pc.hd) ::
      ScanBehind(s', p, q, s.threads[q].pc.hd) && Survives(s, s', s.threads[q].pc.hd)
  }

  /** All other threads keep what they rely on, so only the mover's own facts have to be shown. */
  lemma FrameInv(s: State, s': State, p: nat, touched: set<Ptr>)
    requires Inv(s) && Frame(s, s', p, touched) && TouchedOk(s, s', touched) && Spares(s, s', p)
    requires StackOk(s') && ListOk(s') && PcOk(s', p) && HazardOk(s', p) && RestOk(s', p)
    ensures Inv(s')
  {
    forall q | 0 <= q < |s'.threads|
      ensures PcOk(s', q) && HazardOk(s', q) && RestOk(s', q)
    {
      if q != p {
        PcKept(s, s', p, touched, q);
        HazardKept(s, s', p, touched, q);
      }
    }
    forall x | x in s'.heap
      ensures RecordOk(s', x)
    {
      if x !in touched {
        assert RecordOk(s, x);
      }
    }
    hide PcOk, HazardOk, RestOk, StackOk, ListOk, RecordOk;
  }

  lemma StackKept(s: State, s': State, p: nat, touched: set<Ptr>)
    requires StackOk(s) && Frame(s, s', p, touched)
    requires s'.head == s.head && s'.chain == s.chain
    requires forall x | x in touched && x in s.role :: s.role[x] != InStack
    ensures StackOk(s')
  {
    LinkedFrame(s, s', s.head, s.chain, InStack, p, touched);
  }

  lemma ListKept(s: State, s': State, p: nat, touched: set<Ptr>)
    requires ListOk(s) && Frame(s, s', p, touched)
    requires s'.reclaim == s.reclaim && s'.list == s.list
    requires forall x | x in touched && x in s.role :: s.role[x] != Shared
    ensures ListOk(s')
  {
    LinkedFrame(s, s', s.reclaim, s.list, Shared, p, touched);
  }

  lemma RestKept(s: State, s': State, p: nat, touched: set<Ptr>)
    requires Frame(s, s', p, touched) && RestOk(s, p)
    requires Frontier(s'.threads[p].pc) == Frontier(s.threads[p].pc) && s'.threads[p].rest == s.threads[p].rest
    requires forall x | x in touched && x in s.role :: s.role[x] != Rest(p)
    ensures RestOk(s', p)
  {
    LinkedFrame(s, s', Frontier(s.threads[p].pc), s.threads[p].rest, Rest(p), p, touched);
  }

  // ------------------------------------------------------------ what a step touches

  /** The cells a step writes, makes, deletes or hands on. */
  ghost function Touched(s: State, p: nat, a: Action): set<Ptr>
    requires p < |s.threads|
  {
    var pc := s.threads[p].pc;
    match a
    case NewNode(_, n, _) => {n}
    case LoadIntoNext => {FreshOf(pc)}
    case PushCasOk => {FreshOf(pc)}
    case PushCasFail => {FreshOf(pc)}
    case PopCasOk => {s.head}
    case Take => {DetachedOf(pc)}
    case NewRecord(r) => {DetachedOf(pc), r}
    case InsertOk => {HeldBy(pc)}
    case InsertFail => {HeldBy(pc)}
    case TakeList => set x | x in s.list
    case Advance => {Frontier(pc)}
    case DeleteNode => {HeldBy(pc), NodeIn(s, HeldBy(pc))}
    case DeleteRecord => {HeldBy(pc)}
    case _ => {}
  }

  ghost function NodeIn(s: State, r: Ptr): Ptr { if IsRecord(s, r) then s.heap[r].node else 0 }

  /** What the invariant gives the mover about itself. */
  ghost predicate Ready(s: State, p: nat) {
    && p < |s.threads| && Shape(s) && PcOk(s, p) && HazardOk(s, p)
    && var r := HeldBy(s.threads[p].pc); r in s.heap && r in s.role ==> RecordOk(s, r)
  }

  lemma InvReady(s: State, p: nat)
    requires Inv(s) && p < |s.threads|
    ensures Ready(s, p) && RestOk(s, p) && StackOk(s) && ListOk(s)
  {
  }

  ghost predicate Touches(s: State, s': State, p: nat, a: Action) {
    p < |s.threads| && Frame(s, s', p, Touched(s, p, a)) && TouchedOk(s, s', Touched(s, p, a))
  }

  lemma PushTouches(s: State, s': State, p: nat, a: Action)
    requires Ready(s, p) && PushStep(a) && Step(s, s', p, a)
    ensures Touches(s, s', p, a)
  {
    hide HazardOk;
  }

  lemma TakeTouches(s: State, s': State, p: nat)
    requires Ready(s, p) && DoTake(s, s', p)
    ensures Touches(s, s', p, Take)
  {
  }

  lemma NewRecordTouches(s: State, s': State, p: nat, r: Ptr)
    requires Ready(s, p) && DoNewRecord(s, s', p, r)
    ensures Touches(s, s', p, NewRecord(r))
  {
  }

  lemma InsertOkTouches(s: State, s': State, p: nat)
    requires Ready(s, p) && DoInsertOk(s, s', p)
    ensures Touches(s, s', p, InsertOk)
  {
  }

  lemma InsertFailTouches(s: State, s': State, p: nat)
    requires Ready(s, p) && DoInsertFail(s, s', p)
    ensures Touches(s, s', p, InsertFail)
  {
  }

  lemma DeleteNodeTouches(s: State, s': State, p: nat)
    requires Ready(s, p) && DoDeleteNode(s, s', p)
    ensures Touches(s, s', p, DeleteNode)
  {
  }

  lemma DeleteRecordTouches(s: State, s': State, p: nat)
    requires Ready(s, p) && DoDeleteRecord(s, s', p)
    ensures Touches(s, s', p, DeleteRecord)
  {
  }

  /** The head a popper is about to take is a node of the stack, and the rest is linked behind it. */
  lemma HeadNode(s: State)
    requires StackOk(s) && s.head != 0
    ensures OwnsNode(s, s.head, InStack)
  {
    assert s.chain[0] == s.head;
  }

  lemma PopCasOkTouches(s: State, s': State, p: nat)
    requires Shape(s) && DoPopCasOk(s, s', p) && OwnsNode(s, s.head, InStack)
    ensures Touches(s, s', p, PopCasOk)
  {
  }

  lemma TakeListFrame(s: State, s': State, p: nat)
    requires DoTakeList(s, s', p)
    requires forall x | x in s.list :: x in s.role && s.role[x] == Shared
    ensures Frame(s, s', p, set x | x in s.list)
  {
  }

  lemma TakeListRecord(s: State, s': State, p: nat, x: Ptr)
    requires Inv(s) && DoTakeList(s, s', p) && x in s.list
    ensures x in s.role && s.role[x] == Shared && x in s'.heap && x in s'.role && RecordOk(s', x)
  {
    assert RecordOk(s, x);
    hide StackOk, RestOk, PcOk, HazardOk;
  }

  lemma TakeListTouchedOk(s: State, s': State, p: nat)
    requires Shape(s) && DoTakeList(s, s', p)
    requires forall x | x in s.list ::
               x in s.role && s.role[x] == Shared && x in s'.role && x in s'.heap && RecordOk(s', x)
    ensures TouchedOk(s, s', set x | x in s.list)
  {
    hide RecordOk;
  }

  lemma TakeListTouches(s: State, s': State, p: nat)
    requires Inv(s) && DoTakeList(s, s', p)
    ensures Touches(s, s', p, TakeList)
  {
    assert Shape(s);
    hide *;
    forall x | x in s.list
      ensures x in s.role && s.role[x] == Shared && x in s'.role && x in s'.heap && RecordOk(s', x)
    {
      TakeListRecord(s, s', p, x);
    }
    TakeListFrame(s, s', p);
    TakeListTouchedOk(s, s', p);
    TouchesIs(s, s', p);
  }

  lemma TouchesIs(s: State, s': State, p: nat)
    requires p < |s.threads| && Frame(s, s', p, set x | x in s.list) && TouchedOk(s, s', set x | x in s.list)
    ensures Touches(s, s', p, TakeList)
  {
    hide Frame, TouchedOk;
  }

  /** The next record a scanner visits is its own. */
  lemma FrontRecord(s: State, p: nat)
    requires p < |s.threads| && RestOk(s, p) && Frontier(s.threads[p].pc) != 0
    ensures OwnsRecord(s, Frontier(s.threads[p].pc), Rest(p))
  {
    assert Frontier(s.threads[p].pc) == s.threads[p].rest[0];
  }

  lemma AdvanceTouches(s: State, s': State, p: nat)
    requires Shape(s) && DoAdvance(s, s', p)
    requires var r := s.threads[p].pc.cur; OwnsRecord(s, r, Rest(p)) && RecordOk(s, r)
    ensures Touches(s, s', p, Advance)
  {
  }

  predicate PushStep(a: Action) { a.NewNode? || a.LoadIntoNext? || a.PushCasOk? || a.PushCasFail? }

  predicate OwnerStep(a: Action) { a.Take? || a.NewRecord? || a.InsertOk? || a.InsertFail? }

  predicate ScanStep(a: Action) { a.TakeList? || a.Advance? || a.DeleteNode? || a.DeleteRecord? }

  predicate Writes(a: Action) { PushStep(a) || OwnerStep(a) || ScanStep(a) || a.PopCasOk? }

  lemma AdvanceReady(s: State, p: nat)
    requires Inv(s) && p < |s.threads| && s.threads[p].pc.ScanNext? && s.threads[p].pc.cur != 0
    ensures Shape(s)
    ensures var r := s.threads[p].pc.cur; OwnsRecord(s, r, Rest(p)) && RecordOk(s, r)
  {
    assert RestOk(s, p);
    FrontRecord(s, p);
    assert RecordOk(s, s.threads[p].pc.cur);
    hide StackOk, ListOk, RestOk, PcOk, HazardOk, RecordOk;
  }

  lemma ReadyHead(s: State, p: nat)
    requires Ready(s, p) && StackOk(s) && s.threads[p].pc.PopCas? && s.threads[p].pc.hd == s.head
    ensures Shape(s) && OwnsNode(s, s.head, InStack)
  {
    hide StackOk, PcOk;
    HeadNode(s);
  }

  lemma OwnerTouches(s: State, s': State, p: nat, a: Action)
    requires Ready(s, p) && Step(s, s', p, a) && OwnerStep(a)
    ensures Touches(s, s', p, a)
  {
    hide Ready, Touches;
    match a
    case Take => TakeTouches(s, s', p);
    case NewRecord(r) => NewRecordTouches(s, s', p, r);
    case InsertOk => InsertOkTouches(s, s', p);
    case InsertFail => InsertFailTouches(s, s', p);
  }

  lemma ScanTouches(s: State, s': State, p: nat, a: Action)
    requires Inv(s) && Ready(s, p) && Step(s, s', p, a) && ScanStep(a)
    ensures Touches(s, s', p, a)
  {
    hide Inv, Ready, Touches, RecordOk, OwnsRecord;
    match a
    case TakeList => TakeListTouches(s, s', p);
    case Advance => AdvanceReady(s, p); AdvanceTouches(s, s', p);
    case DeleteNode => DeleteNodeTouches(s, s', p);
    case DeleteRecord => DeleteRecordTouches(s, s', p);
  }

  lemma StepThread(s: State, s': State, p: nat, a: Action)
    requires Step(s, s', p, a)
    ensures p < |s.threads|
  {
  }

  lemma PopCasTouches(s: State, s': State, p: nat)
    requires Ready(s, p) && StackOk(s) && Step(s, s', p, PopCasOk)
    ensures Touches(s, s', p, PopCasOk)
  {
    hide Ready, Touches, StackOk, OwnsNode;
    ReadyHead(s, p);
    PopCasOkTouches(s, s', p);
  }

  lemma StepTouches(s: State, s': State, p: nat, a: Action)
    requires Inv(s) && Step(s, s', p, a) && Writes(a)
    ensures Touches(s, s', p, a)
  {
    hide Inv, Touches, Ready, StackOk, ListOk, RestOk, Step;
    StepThread(s, s', p, a);
    InvReady(s, p);
    if PushStep(a) {
      PushTouches(s, s', p, a);
    } else if OwnerStep(a) {
      OwnerTouches(s, s', p, a);
    } else if ScanStep(a) {
      ScanTouches(s, s', p, a);
    } else {
      PopCasTouches(s, s', p);
    }
  }

  lemma QuietFrame(s: State, s': State, p: nat, a: Action)
    requires Step(s, s', p, a) && !Writes(a)
    ensures p < |s.threads| && Frame(s, s', p, {}) && s'.chain == s.chain
  {
  }

  // ------------------------------------------------------------ what the mover relies on next

  ghost predicate Own(s: State, s': State, p: nat) {
    p < |s.threads| == |s'.threads| && PcOk(s', p) && HazardOk(s', p) && Spares(s, s', p)
  }

  lemma PushOwn(s: State, s': State, p: nat, a: Action)
    requires Ready(s, p) && Step(s, s', p, a) && PushStep(a)
    ensures Own(s, s', p)
  {
    hide RecordOk;
  }

  lemma TakeOwn(s: State, s': State, p: nat)
    requires Ready(s, p) && DoTake(s, s', p)
    ensures Own(s, s', p)
  {
  }

  lemma NewRecordOwn(s: State, s': State, p: nat, r: Ptr)
    requires Ready(s, p) && DoNewRecord(s, s', p, r)
    ensures Own(s, s', p)
  {
  }

  lemma InsertOwn(s: State, s': State, p: nat)
    requires Ready(s, p) && (DoInsertOk(s, s', p) || DoInsertFail(s, s', p))
    ensures Own(s, s', p)
  {
  }

  lemma OwnerOwn(s: State, s': State, p: nat, a: Action)
    requires Ready(s, p) && Step(s, s', p, a) && OwnerStep(a)
    ensures Own(s, s', p)
  {
    hide Ready, Own, DoTake, DoNewRecord, DoInsertOk, DoInsertFail;
    match a
    case Take => TakeOwn(s, s', p);
    case NewRecord(r) => NewRecordOwn(s, s', p, r);
    case InsertOk => InsertOwn(s, s', p);
    case InsertFail => InsertOwn(s, s', p);
  }

  lemma DeleteOwn(s: State, s': State, p: nat, a: Action)
    requires Ready(s, p) && Step(s, s', p, a) && (a.DeleteNode? || a.DeleteRecord?)
    ensures Own(s, s', p)
  {
  }

  lemma PopCasOkOwn(s: State, s': State, p: nat)
    requires Ready(s, p) && StackOk(s) && DoPopCasOk(s, s', p)
    ensures Own(s, s', p)
  {
    LinkedTail(s, s.head, s.chain, InStack);
    hide StackOk, Linked;
  }

  lemma TakeListOwn(s: State, s': State, p: nat)
    requires Ready(s, p) && DoTakeList(s, s', p) && Touches(s, s', p, TakeList)
    ensures Own(s, s', p)
  {
  }

  lemma AdvanceOwn(s: State, s': State, p: nat)
    requires Ready(s, p) && RestOk(s, p) && DoAdvance(s, s', p) && SafeSlots(s)
    ensures Own(s, s', p)
  {
    FrontRecord(s, p);
    hide RestOk;
  }

  lemma StepOwn(s: State, s': State, p: nat, a: Action)
    requires Inv(s) && SafeSlots(s) && Step(s, s', p, a) && Writes(a) && Touches(s, s', p, a)
    ensures Own(s, s', p)
  {
    hide Inv, Touches, Ready, StackOk, ListOk, RestOk, Own, SafeSlots;
    InvReady(s, p);
    if PushStep(a) {
      PushOwn(s, s', p, a);
    } else if OwnerStep(a) {
      OwnerOwn(s, s', p, a);
    } else if a.PopCasOk? {
      PopCasOkOwn(s, s', p);
    } else if a.TakeList? {
      TakeListOwn(s, s', p);
    } else if a.Advance? {
      AdvanceOwn(s, s', p);
    } else {
      DeleteOwn(s, s', p, a);
    }
  }

  // ------------------------------------------------------------ the three kinds of lists

  ghost predicate ListsOk(s: State, p: nat) {
    p < |s.threads| && StackOk(s) && ListOk(s) && RestOk(s, p)
  }

  /** A step that leaves the lists alone and touches none of their cells. */
  ghost predicate Apart(s: State, s': State, p: nat, touched: set<Ptr>) {
    && p < |s.threads| == |s'.threads|
    && s'.head == s.head && s'.chain == s.chain && s'.reclaim == s.reclaim && s'.list == s.list
    && Frontier(s'.threads[p].pc) == Frontier(s.threads[p].pc) && s'.threads[p].rest == s.threads[p].rest
    && (forall x | x in touched && x in s.role :: !s.role[x].InStack? && !s.role[x].Shared? && !s.role[x].Rest?)
  }

  lemma ApartLists(s: State, s': State, p: nat, touched: set<Ptr>)
    requires ListsOk(s, p) && Frame(s, s', p, touched) && Apart(s, s', p, touched)
    ensures ListsOk(s', p)
  {
    StackKept(s, s', p, touched);
    ListKept(s, s', p, touched);
    RestKept(s, s', p, touched);
    hide StackOk, ListOk, RestOk, Frame, Linked;
  }

  lemma PushApart(s: State, s': State, p: nat, a: Action)
    requires Ready(s, p) && Step(s, s', p, a) && (a.NewNode? || a.LoadIntoNext? || a.PushCasFail?)
    ensures Apart(s, s', p, Touched(s, p, a))
  {
  }

  lemma OwnerApart(s: State, s': State, p: nat, a: Action)
    requires Ready(s, p) && Step(s, s', p, a) && (a.Take? || a.NewRecord? || a.InsertFail?)
    ensures Apart(s, s', p, Touched(s, p, a))
  {
  }

  lemma ScanApart(s: State, s': State, p: nat, a: Action)
    requires Ready(s, p) && Step(s, s', p, a) && (a.DeleteNode? || a.DeleteRecord?)
    ensures Apart(s, s', p, Touched(s, p, a))
  {
  }

  lemma PushCasOkLists(s: State, s': State, p: nat)
    requires Ready(s, p) && ListsOk(s, p) && DoPushCasOk(s, s', p) && Touches(s, s', p, PushCasOk)
    ensures ListsOk(s', p)
  {
    var touched := Touched(s, p, PushCasOk);
    ListKept(s, s', p, touched);
    RestKept(s, s', p, touched);
    LinkedFrame(s, s', s.head, s.chain, InStack, p, touched);
    LinkedCons(s', s'.head, s.head, s.chain, InStack);
  }

  lemma PopCasOkLists(s: State, s': State, p: nat)
    requires Ready(s, p) && ListsOk(s, p) && DoPopCasOk(s, s', p) && Touches(s, s', p, PopCasOk)
    ensures ListsOk(s', p)
  {
    var touched := Touched(s, p, PopCasOk);
    LinkedTail(s, s.head, s.chain, InStack);
    ListKept(s, s', p, touched);
    RestKept(s, s', p, touched);
    LinkedFrame(s, s', s'.head, s'.chain, InStack, p, touched);
  }

  lemma InsertOkLists(s: State, s': State, p: nat)
    requires Ready(s, p) && ListsOk(s, p) && DoInsertOk(s, s', p)
    requires Frame(s, s', p, {HeldBy(s.threads[p].pc)})
    ensures ListsOk(s', p)
  {
    var touched := {HeldBy(s.threads[p].pc)};
    assert OwnsRecord(s, HeldBy(s.threads[p].pc), Held(p));
    hide PcOk, HazardOk, RecordOk;
    StackKept(s, s', p, touched);
    RestKept(s, s', p, touched);
    LinkedFrame(s, s', s.reclaim, s.list, Shared, p, touched);
    LinkedCons(s', s'.reclaim, s.reclaim, s.list, Shared);
  }

  lemma TakeListStack(s: State, s': State, p: nat)
    requires StackOk(s) && DoTakeList(s, s', p) && Frame(s, s', p, set x | x in s.list)
    requires forall x | x in s.list :: x in s.role && s.role[x] == Shared
    ensures StackOk(s') && ListOk(s')
  {
    hide Frame;
    StackKept(s, s', p, set x | x in s.list);
  }

  lemma TakeListRest(s: State, s': State, p: nat)
    requires ListOk(s) && DoTakeList(s, s', p)
    ensures p < |s'.threads| && RestOk(s', p)
  {
    LinkedRelabel(s, s', s.reclaim, s.list, Shared, Rest(p));
  }

  lemma TakeListLists(s: State, s': State, p: nat)
    requires ListsOk(s, p) && DoTakeList(s, s', p) && Frame(s, s', p, set x | x in s.list)
    ensures ListsOk(s', p)
  {
    assert forall x | x in s.list :: x in s.role && s.role[x] == Shared;
    hide StackOk, ListOk, RestOk, Frame, DoTakeList;
    TakeListStack(s, s', p);
    TakeListRest(s, s', p);
  }

  lemma AdvanceRest(s: State, s': State, p: nat)
    requires p < |s.threads| && RestOk(s, p) && DoAdvance(s, s', p) && Frame(s, s', p, {s.threads[p].pc.cur})
    ensures p < |s'.threads| && RestOk(s', p)
  {
    LinkedTail(s, s.threads[p].pc.cur, s.threads[p].rest, Rest(p));
    LinkedFrame(s, s', Frontier(s'.threads[p].pc), s'.threads[p].rest, Rest(p), p, {s.threads[p].pc.cur});
    hide Frame;
  }

  lemma AdvanceLists(s: State, s': State, p: nat)
    requires ListsOk(s, p) && DoAdvance(s, s', p) && Frame(s, s', p, {s.threads[p].pc.cur})
    ensures ListsOk(s', p)
  {
    FrontRecord(s, p);
    hide StackOk, ListOk, RestOk, Frame;
    AdvanceRest(s, s', p);
    StackKept(s, s', p, {s.threads[p].pc.cur});
    ListKept(s, s', p, {s.threads[p].pc.cur});
  }

  predicate Relists(a: Action) { a.PushCasOk? || a.PopCasOk? || a.InsertOk? || a.TakeList? || a.Advance? }

  lemma RelistingLists(s: State, s': State, p: nat, a: Action)
    requires Ready(s, p) && ListsOk(s, p) && Step(s, s', p, a) && Touches(s, s', p, a) && Relists(a)
    ensures ListsOk(s', p)
  {
    hide Ready, ListsOk, Frame, TouchedOk;
    match a
    case PushCasOk => PushCasOkLists(s, s', p);
    case PopCasOk => PopCasOkLists(s, s', p);
    case InsertOk => InsertOkLists(s, s', p);
    case TakeList => TakeListLists(s, s', p);
    case Advance => AdvanceLists(s, s', p);
  }

  lemma StepLists(s: State, s': State, p: nat, a: Action)
    requires Inv(s) && Step(s, s', p, a) && Writes(a) && Touches(s, s', p, a)
    ensures ListsOk(s', p)
  {
    hide Inv, Ready, StackOk, ListOk, Frame, TouchedOk, Touched, Apart, RestOk, Step;
    InvReady(s, p);
    assert ListsOk(s, p);
    hide ListsOk;
    if Relists(a) {
      RelistingLists(s, s', p, a);
    } else {
      if PushStep(a) {
        PushApart(s, s', p, a);
      } else if OwnerStep(a) {
        OwnerApart(s, s', p, a);
      } else {
        ScanApart(s, s', p, a);
      }
      ApartLists(s, s', p, Touched(s, p, a));
    }
  }

  // ------------------------------------------------------------ steps that write no cell

  /** Nothing changes but the thread, its hazard slot and the counter. */
  ghost predicate Quiet(s: State, s': State, p: nat) {
    && p < |s.threads| == |s'.threads| && |s.hazard| == |s'.hazard|
    && s' == s.(threads := s'.threads, hazard := s'.hazard, cnt := s'.cnt)
    && s'.threads == s.threads[p := s'.threads[p]] && s'.threads[p].rest == s.threads[p].rest
    && (s'.hazard == s.hazard || (p < |s.hazard| && s'.hazard == s.hazard[p := s'.hazard[p]]))
    && Frontier(s'.threads[p].pc) == Frontier(s.threads[p].pc)
  }

  lemma QuietLists(s: State, s': State, p: nat)
    requires ListsOk(s, p) && Quiet(s, s', p)
    ensures ListsOk(s', p)
  {
    StackKept(s, s', p, {});
    ListKept(s, s', p, {});
    RestKept(s, s', p, {});
  }

  lemma QuietInv(s: State, s': State, p: nat)
    requires Inv(s) && Quiet(s, s', p) && Own(s, s', p)
    ensures Inv(s')
  {
    assert ListsOk(s, p) && Shape(s);
    hide Inv, StackOk, ListOk, RestOk, PcOk, HazardOk, Spares;
    QuietLists(s, s', p);
    FrameInv(s, s', p, {});
  }

  /** No scanner works on a node that is still in the stack. */
  lemma Unscanned(s: State, x: Ptr, p: nat)
    requires Inv(s) && x in s.role && s.role[x] == InStack
    ensures forall q | 0 <= q < |s.threads| :: ScanBehind(s, q, p, x)
  {
    forall q | 0 <= q < |s.threads|
      ensures ScanBehind(s, q, p, x)
    {
      assert PcOk(s, q);
      if Holding(s.threads[q].pc) {
        assert RecordOk(s, HeldBy(s.threads[q].pc));
      }
    }
  }

  predicate PopQuiet(a: Action) { a.PopStart? || a.Publish? || a.ReadNext? || a.PopCasFail? || a.Clear? }

  predicate CountQuiet(a: Action) { a.CountUp? || a.Decide? || a.CountDown? }

  predicate ScanQuiet(a: Action) { a.ScanEnd? || a.CheckSlot? || a.Return? }

  lemma PopQuietOwn(s: State, s': State, p: nat, a: Action)
    requires Ready(s, p) && Step(s, s', p, a) && PopQuiet(a)
    ensures Quiet(s, s', p) && Own(s, s', p)
  {
    assert a.ReadNext? ==> forall q | 0 <= q < |s.threads| ::
        ScanBehind(s, q, p, s.threads[p].pc.hd) ==> ScanBehind(s', q, p, s.threads[p].pc.hd);
    hide RecordOk;
  }

  lemma CountQuietOwn(s: State, s': State, p: nat, a: Action)
    requires Ready(s, p) && Step(s, s', p, a) && CountQuiet(a)
    ensures Quiet(s, s', p) && Own(s, s', p)
  {
    hide RecordOk;
  }

  lemma ScanQuietOwn(s: State, s': State, p: nat, a: Action)
    requires Ready(s, p) && Step(s, s', p, a) && ScanQuiet(a)
    ensures Quiet(s, s', p) && Own(s, s', p)
  {
    hide RecordOk;
  }

  lemma ReloadOwn(s: State, s': State, p: nat)
    requires Ready(s, p) && Step(s, s', p, Reload)
    requires s.head != 0 ==>
               OwnsNode(s, s.head, InStack) && forall q | 0 <= q < |s.threads| :: ScanBehind(s, q, p, s.head)
    ensures Quiet(s, s', p) && Own(s, s', p)
  {
    assert forall q | 0 <= q < |s.threads| :: ScanBehind(s, q, p, s.head) ==> ScanBehind(s', q, p, s.head);
    hide RecordOk;
  }

  lemma HeadUnscanned(s: State, p: nat)
    requires Inv(s) && s.head != 0
    ensures OwnsNode(s, s.head, InStack) && forall q | 0 <= q < |s.threads| :: ScanBehind(s, q, p, s.head)
  {
    assert s.chain[0] == s.head;
    Unscanned(s, s.head, p);
  }

  lemma QuietStepInv(s: State, s': State, p: nat, a: Action)
    requires p < |s.threads| && Inv(s) && Step(s, s', p, a) && !Writes(a)
    ensures Inv(s')
  {
    hide Inv, Step, Ready, Quiet, Own, StackOk, ListOk, RestOk;
    InvReady(s, p);
    if PopQuiet(a) {
      PopQuietOwn(s, s', p, a);
    } else if CountQuiet(a) {
      CountQuietOwn(s, s', p, a);
    } else if ScanQuiet(a) {
      ScanQuietOwn(s, s', p, a);
    } else {
      if s.head != 0 {
        HeadUnscanned(s, p);
      }
      ReloadOwn(s, s', p);
    }
    QuietInv(s, s', p);
  }

  lemma WriteInv(s: State, s': State, p: nat, a: Action)
    requires Inv(s) && SafeSlots(s) && Step(s, s', p, a) && Writes(a)
    ensures Inv(s')
  {
    hide Inv, Step, Touched, Frame, TouchedOk, Spares, SafeSlots;
    StepTouches(s, s', p, a);
    StepOwn(s, s', p, a);
    StepLists(s, s', p, a);
    FrameInv(s, s', p, Touched(s, p, a));
  }

  // ------------------------------------------------------------ every step

  lemma StepInv(s: State, s': State, p: nat, a: Action)
    requires Inv(s) && SafeSlots(s) && Step(s, s', p, a)
    ensures Inv(s') && SafeSlots(s')
  {
    hide Inv;
    if Writes(a) {
      WriteInv(s, s', p, a);
    } else {
      QuietStepInv(s, s', p, a);
    }
  }
}
