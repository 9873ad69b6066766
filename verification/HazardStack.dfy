/** The Treiber stack of benchmark/nonblocking/COstack with hazard-pointer reclamation.

    Every atomic operation and every access to a heap cell is one step.  The allocator may
    return any free address, so a deleted address can come back as a new stack node or as a
    new reclaim record at once.

    `role`, `chain`, `list`, `rest` and `claim` are history variables: no step is guarded by
    them and no other component is computed from them. */
module HazardStack {
  import opened Wrappers

  /** 0 is the null pointer. */
  type Ptr = nat

  datatype Cell =
    | Node(data: Option<int>, next: Ptr)     // lock_free_stack::node
    | Record(node: Ptr, next: Ptr)           // data_to_reclaim

  /** Where a thread stands inside `push` or `pop`; the arguments are its locals. */
  datatype Pc =
    | Idle
    // push
    | PushLoad(n: Ptr, v: int)
    | PushCas(n: Ptr, v: int)
    // pop: the publish/validate loop and the CAS
    | PopPublish(hd: Ptr)
    | PopReload(temp: Ptr)
    | PopReadNext(hd: Ptr)
    | PopCas(hd: Ptr, next: Ptr)
    | PopClear(hd: Ptr)
    | PopTake(hd: Ptr)
    // Retire
    | RetireAlloc(hd: Ptr, res: Option<int>)
    | RetireInsert(rec: Ptr, res: Option<int>)
    | RetireCount(res: Option<int>)
    | PopDecide(res: Option<int>)
    // delete_nodes_with_no_hazards
    | ScanTake(res: Option<int>)
    | ScanNext(cur: Ptr, res: Option<int>)
    | ScanSlot(cur: Ptr, next: Ptr, node: Ptr, i: nat, res: Option<int>)
    | ScanReinsert(cur: Ptr, next: Ptr, res: Option<int>)
    | ScanDeleteNode(cur: Ptr, next: Ptr, res: Option<int>)
    | ScanDeleteRec(cur: Ptr, next: Ptr, res: Option<int>)
    | ScanCount(next: Ptr, res: Option<int>)
    | PopReturn(res: Option<int>)

  /** The abstract effect the current `pop` has had so far. */
  datatype Claim = Pending | SawEmpty | Took(value: Option<int>)

  datatype Thread = Thread(pc: Pc, rest: seq<Ptr>, claim: Claim)

  /** The one place that owns an allocated cell. */
  datatype Role =
    | Fresh(p: nat)        // a node its pusher has not published
    | InStack
    | Detached(p: nat)     // a node its popper has not retired
    | Retired(rec: Ptr)    // a node waiting in a reclaim record
    | Shared               // a record in node_to_reclaim
    | Held(p: nat)         // the record a thread is working on
    | Rest(p: nat)         // a record in a scanner's private list
    | Spent(p: nat)        // the held record, once its node is deleted

  datatype State = State(
    start: nat,            // start_cid
    max: nat,              // max_hazard_pointers
    limit: int,            // the reclaim threshold
    poppers: set<nat>,     // the threads that call pop, by tid
    head: Ptr,
    reclaim: Ptr,          // node_to_reclaim
    cnt: int,              // reclaim_cnt
    hazard: seq<Ptr>,
    heap: map<Ptr, Cell>,
    threads: seq<Thread>,
    role: map<Ptr, Role>,
    chain: seq<Ptr>,
    list: seq<Ptr>)

  datatype Action =
    | NewNode(v: int, n: Ptr, garbage: Ptr)
    | LoadIntoNext
    | PushCasOk
    | PushCasFail
    | PopStart
    | Publish
    | Reload
    | ReadNext
    | PopCasOk
    | PopCasFail
    | Clear
    | Take
    | NewRecord(r: Ptr)
    | InsertOk
    | InsertFail
    | CountUp
    | Decide
    | TakeList
    | ScanEnd
    | Advance
    | CheckSlot
    | DeleteNode
    | DeleteRecord
    | CountDown
    | Return

  // ---------------------------------------------------------------- steps

  function Goto(s: State, p: nat, pc: Pc): (ts: seq<Thread>)
    requires p < |s.threads|
  {
    s.threads[p := s.threads[p].(pc := pc)]
  }

  predicate IsNode(s: State, x: Ptr) { x in s.heap && s.heap[x].Node? }

  predicate IsRecord(s: State, r: Ptr) { r in s.heap && s.heap[r].Record? }

  function Relink(c: Cell, next: Ptr): Cell {
    match c
    case Node(data, _) => Node(data, next)
    case Record(node, _) => Record(node, next)
  }

  function Tail(c: seq<Ptr>): seq<Ptr> { if |c| == 0 then [] else c[1..] }

  /** Element `i` of a list of cells, or null past its end. */
  function At(c: seq<Ptr>, i: nat): Ptr { if i < |c| then c[i] else 0 }

  function DataAt(s: State, x: Ptr): Option<int> { if IsNode(s, x) then s.heap[x].data else None }

  function MoveToRest(role: map<Ptr, Role>, list: seq<Ptr>, p: nat): (m: map<Ptr, Role>)
    ensures m.Keys == role.Keys
    ensures forall x | x in role && x in m :: m[x] == if x in list then Rest(p) else role[x]
  {
    map x | x in role :: if x in list then Rest(p) else role[x]
  }

  ghost predicate DoNewNode(s: State, s': State, p: nat, v: int, n: Ptr, garbage: Ptr) {
    && p < |s.threads|
    && var pc := s.threads[p].pc;
       && pc.Idle? && n != 0 && n !in s.heap
       && s' == s.(heap := s.heap[n := Node(Some(v), garbage)],
                   role := s.role[n := Fresh(p)],
                   threads := Goto(s, p, PushLoad(n, v)))
  }

  ghost predicate DoLoadIntoNext(s: State, s': State, p: nat) {
    && p < |s.threads|
    && var pc := s.threads[p].pc;
       && pc.PushLoad? && IsNode(s, pc.n)
       && s' == s.(heap := s.heap[pc.n := Relink(s.heap[pc.n], s.head)],
                   threads := Goto(s, p, PushCas(pc.n, pc.v)))
  }

  ghost predicate DoPushCasOk(s: State, s': State, p: nat) {
    && p < |s.threads|
    && var pc := s.threads[p].pc;
       && pc.PushCas? && IsNode(s, pc.n) && s.head == s.heap[pc.n].next
       && s' == s.(head := pc.n, chain := [pc.n] + s.chain,
                   role := s.role[pc.n := InStack],
                   threads := Goto(s, p, Idle))
  }

  /** Genuine or spurious: the expected value is overwritten either way. */
  ghost predicate DoPushCasFail(s: State, s': State, p: nat) {
    && p < |s.threads|
    && var pc := s.threads[p].pc;
       && pc.PushCas? && IsNode(s, pc.n)
       && s' == s.(heap := s.heap[pc.n := Relink(s.heap[pc.n], s.head)])
  }

  ghost predicate DoPopStart(s: State, s': State, p: nat) {
    && p < |s.threads|
    && var t, pc := s.threads[p], s.threads[p].pc;
       && pc.Idle? && p in s.poppers
       && s' == s.(threads := s.threads[p := t.(pc := PopPublish(s.head), claim := Pending)])
  }

  ghost predicate DoPublish(s: State, s': State, p: nat) {
    && p < |s.threads|
    && var pc := s.threads[p].pc;
       && pc.PopPublish? && p < |s.hazard|
       && s' == s.(hazard := s.hazard[p := pc.hd], threads := Goto(s, p, PopReload(pc.hd)))
  }

  ghost predicate DoReload(s: State, s': State, p: nat) {
    && p < |s.threads|
    && var t, pc := s.threads[p], s.threads[p].pc;
       && pc.PopReload?
       && s' == s.(threads :=
           if s.head != pc.temp then Goto(s, p, PopPublish(s.head))
           else if s.head == 0 then s.threads[p := t.(pc := PopClear(0), claim := SawEmpty)]
           else Goto(s, p, PopReadNext(s.head)))
  }

  ghost predicate DoReadNext(s: State, s': State, p: nat) {
    && p < |s.threads|
    && var pc := s.threads[p].pc;
       && pc.PopReadNext? && IsNode(s, pc.hd)
       && s' == s.(threads := Goto(s, p, PopCas(pc.hd, s.heap[pc.hd].next)))
  }

  ghost predicate DoPopCasOk(s: State, s': State, p: nat) {
    && p < |s.threads|
    && var t, pc := s.threads[p], s.threads[p].pc;
       && pc.PopCas? && s.head == pc.hd
       && s' == s.(head := pc.next, chain := Tail(s.chain),
                   role := s.role[pc.hd := Detached(p)],
                   threads := s.threads[p := t.(pc := PopClear(pc.hd), claim := Took(DataAt(s, pc.hd)))])
  }

  /** Strong: fails only when head has changed. */
  ghost predicate DoPopCasFail(s: State, s': State, p: nat) {
    && p < |s.threads|
    && var pc := s.threads[p].pc;
       && pc.PopCas? && s.head != pc.hd
       && s' == s.(threads := Goto(s, p, PopPublish(s.head)))
  }

  ghost predicate DoClear(s: State, s': State, p: nat) {
    && p < |s.threads|
    && var pc := s.threads[p].pc;
       && pc.PopClear? && p < |s.hazard|
       && s' == s.(hazard := s.hazard[p := 0],
                   threads := Goto(s, p, if pc.hd == 0 then PopReturn(None) else PopTake(pc.hd)))
  }

  ghost predicate DoTake(s: State, s': State, p: nat) {
    && p < |s.threads|
    && var pc := s.threads[p].pc;
       && pc.PopTake? && IsNode(s, pc.hd)
       && s' == s.(heap := s.heap[pc.hd := Node(None, s.heap[pc.hd].next)],
                   threads := Goto(s, p, RetireAlloc(pc.hd, s.heap[pc.hd].data)))
  }

  ghost predicate DoNewRecord(s: State, s': State, p: nat, r: Ptr) {
    && p < |s.threads|
    && var pc := s.threads[p].pc;
       && pc.RetireAlloc? && r != 0 && r !in s.heap
       && s' == s.(heap := s.heap[r := Record(pc.hd, 0)],
                   role := s.role[r := Held(p)][pc.hd := Retired(r)],
                   threads := Goto(s, p, RetireInsert(r, pc.res)))
  }

  ghost predicate DoInsertOk(s: State, s': State, p: nat) {
    && p < |s.threads|
    && var pc := s.threads[p].pc;
       && (pc.RetireInsert? || pc.ScanReinsert?)
       && var r := HeldBy(pc);
          && IsRecord(s, r) && s.reclaim == s.heap[r].next
          && s' == s.(reclaim := r, list := [r] + s.list, role := s.role[r := Shared],
                      threads := Goto(s, p,
                        if pc.RetireInsert? then RetireCount(pc.res) else ScanNext(pc.next, pc.res)))
  }

  /** Genuine or spurious. */
  ghost predicate DoInsertFail(s: State, s': State, p: nat) {
    && p < |s.threads|
    && var pc := s.threads[p].pc;
       && (pc.RetireInsert? || pc.ScanReinsert?)
       && var r := HeldBy(pc);
          && IsRecord(s, r)
          && s' == s.(heap := s.heap[r := Relink(s.heap[r], s.reclaim)])
  }

  ghost predicate DoCountUp(s: State, s': State, p: nat) {
    && p < |s.threads|
    && var pc := s.threads[p].pc;
       && pc.RetireCount?
       && s' == s.(cnt := s.cnt + 1, threads := Goto(s, p, PopDecide(pc.res)))
  }

  ghost predicate DoDecide(s: State, s': State, p: nat) {
    && p < |s.threads|
    && var pc := s.threads[p].pc;
       && pc.PopDecide?
       && s' == s.(threads := Goto(s, p, if s.cnt >= s.limit then ScanTake(pc.res) else PopReturn(pc.res)))
  }

  ghost predicate DoTakeList(s: State, s': State, p: nat) {
    && p < |s.threads|
    && var t, pc := s.threads[p], s.threads[p].pc;
       && pc.ScanTake?
       && s' == s.(reclaim := 0, list := [], role := MoveToRest(s.role, s.list, p),
                   threads := s.threads[p := t.(pc := ScanNext(s.reclaim, pc.res), rest := s.list)])
  }

  ghost predicate DoScanEnd(s: State, s': State, p: nat) {
    && p < |s.threads|
    && var pc := s.threads[p].pc;
       && pc.ScanNext? && pc.cur == 0
       && s' == s.(threads := Goto(s, p, PopReturn(pc.res)))
  }

  ghost predicate DoAdvance(s: State, s': State, p: nat) {
    && p < |s.threads|
    && var t, pc := s.threads[p], s.threads[p].pc;
       && pc.ScanNext? && pc.cur != 0 && IsRecord(s, pc.cur)
       && s' == s.(role := s.role[pc.cur := Held(p)],
                   threads := s.threads[p := t.(rest := Tail(t.rest),
                     pc := ScanSlot(pc.cur, s.heap[pc.cur].next, s.heap[pc.cur].node, s.start, pc.res))])
  }

  ghost predicate DoCheckSlot(s: State, s': State, p: nat) {
    && p < |s.threads|
    && var pc := s.threads[p].pc;
       && pc.ScanSlot?
       && s' == s.(threads :=
           if pc.i >= |s.hazard| then Goto(s, p, ScanDeleteNode(pc.cur, pc.next, pc.res))
           else if s.hazard[pc.i] == pc.node then Goto(s, p, ScanReinsert(pc.cur, pc.next, pc.res))
           else Goto(s, p, pc.(i := pc.i + 1)))
  }

  ghost predicate DoDeleteNode(s: State, s': State, p: nat) {
    && p < |s.threads|
    && var pc := s.threads[p].pc;
       && pc.ScanDeleteNode? && IsRecord(s, pc.cur) && IsNode(s, s.heap[pc.cur].node)
       && s' == s.(heap := s.heap - {s.heap[pc.cur].node},
                   role := s.role[pc.cur := Spent(p)] - {s.heap[pc.cur].node},
                   threads := Goto(s, p, ScanDeleteRec(pc.cur, pc.next, pc.res)))
  }

  ghost predicate DoDeleteRecord(s: State, s': State, p: nat) {
    && p < |s.threads|
    && var pc := s.threads[p].pc;
       && pc.ScanDeleteRec? && IsRecord(s, pc.cur)
       && s' == s.(heap := s.heap - {pc.cur}, role := s.role - {pc.cur},
                   threads := Goto(s, p, ScanCount(pc.next, pc.res)))
  }

  ghost predicate DoCountDown(s: State, s': State, p: nat) {
    && p < |s.threads|
    && var pc := s.threads[p].pc;
       && pc.ScanCount?
       && s' == s.(cnt := s.cnt - 1, threads := Goto(s, p, ScanNext(pc.next, pc.res)))
  }

  ghost predicate DoReturn(s: State, s': State, p: nat) {
    && p < |s.threads|
    && var pc := s.threads[p].pc;
       && pc.PopReturn?
       && s' == s.(threads := Goto(s, p, Idle))
  }

  ghost predicate Step(s: State, s': State, p: nat, a: Action) {
    match a
    case NewNode(v, n, garbage) => DoNewNode(s, s', p, v, n, garbage)
    case LoadIntoNext => DoLoadIntoNext(s, s', p)
    case PushCasOk => DoPushCasOk(s, s', p)
    case PushCasFail => DoPushCasFail(s, s', p)
    case PopStart => DoPopStart(s, s', p)
    case Publish => DoPublish(s, s', p)
    case Reload => DoReload(s, s', p)
    case ReadNext => DoReadNext(s, s', p)
    case PopCasOk => DoPopCasOk(s, s', p)
    case PopCasFail => DoPopCasFail(s, s', p)
    case Clear => DoClear(s, s', p)
    case Take => DoTake(s, s', p)
    case NewRecord(r) => DoNewRecord(s, s', p, r)
    case InsertOk => DoInsertOk(s, s', p)
    case InsertFail => DoInsertFail(s, s', p)
    case CountUp => DoCountUp(s, s', p)
    case Decide => DoDecide(s, s', p)
    case TakeList => DoTakeList(s, s', p)
    case ScanEnd => DoScanEnd(s, s', p)
    case Advance => DoAdvance(s, s', p)
    case CheckSlot => DoCheckSlot(s, s', p)
    case DeleteNode => DoDeleteNode(s, s', p)
    case DeleteRecord => DoDeleteRecord(s, s', p)
    case CountDown => DoCountDown(s, s', p)
    case Return => DoReturn(s, s', p)
  }

  ghost predicate Init(s: State) {
    && s.start <= s.max
    && |s.hazard| == s.max && (forall i | 0 <= i < s.max :: s.hazard[i] == 0)
    && (forall p | p in s.poppers :: p < s.max && p < |s.threads|)
    && s.head == 0 && s.reclaim == 0 && s.cnt == 0
    && s.heap == map[] && s.role == map[] && s.chain == [] && s.list == []
    && (forall p | 0 <= p < |s.threads| :: s.threads[p] == Thread(Idle, [], Pending))
  }

  /** Every popper publishes in a slot that the scan reads, unless it is the only popper. */
  ghost predicate SafeSlots(s: State) {
    forall q | q in s.poppers :: s.start <= q || s.poppers == {q}
  }

  // ---------------------------------------------------------------- invariant

  /** `c` is the list of cells linked by `next` from pointer `h`, each owned as `r`. */
  ghost predicate Linked(s: State, h: Ptr, c: seq<Ptr>, r: Role) {
    && h == At(c, 0)
    && (forall i | 0 <= i < |c| :: c[i] != 0 && c[i] in s.heap && c[i] in s.role && s.role[c[i]] == r)
    && (forall i, j | 0 <= i && j == i + 1 && j < |c| :: s.heap[c[i]].next == c[j])
    && (|c| > 0 ==> s.heap[c[|c| - 1]].next == 0)
    && (forall i, j | 0 <= i < j < |c| :: c[i] != c[j])
  }

  ghost predicate Shape(s: State) {
    && s.start <= s.max && |s.hazard| == s.max
    && (forall p | p in s.poppers :: p < s.max && p < |s.threads|)
    && s.role.Keys == s.heap.Keys
    && 0 !in s.heap
  }

  ghost predicate StackOk(s: State) {
    && Linked(s, s.head, s.chain, InStack)
    && (forall i | 0 <= i < |s.chain| :: s.heap[s.chain[i]].Node? && s.heap[s.chain[i]].data.Some?)
  }

  ghost predicate ListOk(s: State) {
    && Linked(s, s.reclaim, s.list, Shared)
    && (forall i | 0 <= i < |s.list| :: s.heap[s.list[i]].Record?)
  }

  /** A popper that has validated `x` may dereference it: `x` is a published node that no scanner
      is about to delete, and every scanner of `x` still has the popper's slot ahead of it. */
  ghost predicate Protected(s: State, p: nat, x: Ptr) {
    && p in s.poppers && p < |s.hazard| && s.hazard[p] == x
    && x != 0 && IsNode(s, x) && x in s.role && !s.role[x].Fresh?
    && (forall q | 0 <= q < |s.threads| :: ScanBehind(s, q, p, x))
  }

  ghost predicate ScanBehind(s: State, q: nat, p: nat, x: Ptr)
    requires q < |s.threads|
  {
    var pc := s.threads[q].pc;
    && (pc.ScanSlot? && pc.node == x ==> pc.i <= p)
    && (pc.ScanDeleteNode? && IsRecord(s, pc.cur) ==> s.heap[pc.cur].node != x)
  }

  ghost predicate OwnsRecord(s: State, r: Ptr, role: Role) {
    IsRecord(s, r) && r in s.role && s.role[r] == role
  }

  ghost predicate OwnsNode(s: State, x: Ptr, r: Role) {
    IsNode(s, x) && x in s.role && s.role[x] == r
  }

  predicate Pushing(pc: Pc) { pc.PushLoad? || pc.PushCas? }

  predicate Popping(pc: Pc) { !pc.Idle? && !Pushing(pc) }

  predicate Validated(pc: Pc) { pc.PopReadNext? || pc.PopCas? }

  predicate Holding(pc: Pc) {
    pc.RetireInsert? || pc.ScanSlot? || pc.ScanReinsert? || pc.ScanDeleteNode?
  }

  ghost predicate PcOk(s: State, p: nat)
    requires p < |s.threads|
  {
    var pc := s.threads[p].pc;
    && (Pushing(pc) ==> OwnsNode(s, pc.n, Fresh(p)) && s.heap[pc.n].data == Some(pc.v))
    && (Popping(pc) ==> p in s.poppers)
    && (pc.PopReload? ==> p < |s.hazard| && s.hazard[p] == pc.temp)
    && (pc.PopTake? || pc.RetireAlloc? ==> pc.hd != 0)
    && (DetachedOf(pc) != 0 ==> OwnsNode(s, DetachedOf(pc), Detached(p)))
    && (Holding(pc) ==> OwnsRecord(s, HeldBy(pc), Held(p)))
    && (pc.ScanDeleteRec? ==> OwnsRecord(s, pc.cur, Spent(p)))
    && (pc.ScanSlot? ==> s.heap[pc.cur].node == pc.node && s.start <= pc.i <= s.max)
  }

  ghost predicate HazardOk(s: State, p: nat)
    requires p < |s.threads|
  {
    var pc := s.threads[p].pc;
    && (Validated(pc) ==> Protected(s, p, pc.hd))
    && (pc.PopCas? ==> s.heap[pc.hd].next == pc.next)
  }

  /** The pointer from which the records a scanner still has to visit are linked. */
  function Frontier(pc: Pc): Ptr {
    match pc
    case ScanNext(cur, _) => cur
    case ScanSlot(_, next, _, _, _) => next
    case ScanReinsert(_, next, _) => next
    case ScanDeleteNode(_, next, _) => next
    case ScanDeleteRec(_, next, _) => next
    case ScanCount(next, _) => next
    case _ => 0
  }

  ghost predicate RestOk(s: State, p: nat)
    requires p < |s.threads|
  {
    var t := s.threads[p];
    && Linked(s, Frontier(t.pc), t.rest, Rest(p))
    && (forall i | 0 <= i < |t.rest| :: s.heap[t.rest[i]].Record?)
  }

  /** The node a pusher has not published yet, or 0. */
  function FreshOf(pc: Pc): Ptr {
    match pc
    case PushLoad(n, _) => n
    case PushCas(n, _) => n
    case _ => 0
  }

  /** The node a popper has won and not retired yet, or 0. */
  function DetachedOf(pc: Pc): Ptr {
    match pc
    case PopClear(hd) => hd
    case PopTake(hd) => hd
    case RetireAlloc(hd, _) => hd
    case _ => 0
  }

  /** The record a thread is working on, or 0. */
  function HeldBy(pc: Pc): Ptr {
    match pc
    case RetireInsert(rec, _) => rec
    case ScanSlot(cur, _, _, _, _) => cur
    case ScanReinsert(cur, _, _) => cur
    case ScanDeleteNode(cur, _, _) => cur
    case ScanDeleteRec(cur, _, _) => cur
    case _ => 0
  }

  /** A record that is not spent carries a live node, retired into that very record. */
  ghost predicate RecordOk(s: State, r: Ptr)
    requires r in s.heap && r in s.role
  {
    s.heap[r].Record? ==>
      && (s.role[r].Shared? || s.role[r].Held? || s.role[r].Rest? || s.role[r].Spent?)
      && (!s.role[r].Spent? ==> OwnsNode(s, s.heap[r].node, Retired(r)))
  }

  ghost predicate Inv(s: State) {
    && Shape(s)
    && StackOk(s)
    && ListOk(s)
    && (forall p | 0 <= p < |s.threads| :: PcOk(s, p))
    && (forall p | 0 <= p < |s.threads| :: HazardOk(s, p))
    && (forall p | 0 <= p < |s.threads| :: RestOk(s, p))
    && (forall r | r in s.heap :: RecordOk(s, r))
  }
}
