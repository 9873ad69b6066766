/** Several tasks that share one growing hash table, each calling `g_First_Insert` and then
    `Second_Insert`, or `Lookup`, or `Clean`.  The protected operations are single steps on the map that the
    table stands for; the check for growth and the addition to the item counter are two steps.  `Execute`
    carries any such run out on the probing table itself. */
module HashTasks {
  import opened HashTable

  datatype Task = Idle | Checked(k: int, v: int) | Counted(k: int, v: int)

  /** `failed`: `Find_Slot` has run into its `Assert (False)`. */
  datatype State = State(size: nat, items: nat, table: map<int, int>, tasks: seq<Task>, failed: bool)

  datatype Action = CheckResize(k: int, v: int) | AddItem | Put | Lookup(k: int) | Clean

  ghost predicate Init(s: State, n: nat, t: nat) {
    s == State(n, 0, map[], AllIdle(t), false)
  }

  function AllIdle(t: nat): seq<Task> { seq(t, i => Idle) }

  /** A key is found, or a free slot for it, unless the table is full of others. */
  predicate Findable(s: State, k: int) { k in s.table || |s.table| < s.size }

  ghost predicate Step(s: State, s': State, p: nat, a: Action) {
    && p < |s.tasks|
    && var t := s.tasks[p];
       match a
       case CheckResize(k, v) =>
         t.Idle? && s' == s.(size := if 10 * s.items > 7 * s.size then 2 * s.size else s.size,
                             tasks := s.tasks[p := Checked(k, v)])
       case AddItem => t.Checked? && s' == s.(items := s.items + 1, tasks := s.tasks[p := Counted(t.k, t.v)])
       case Put =>
         t.Counted? && s' == if Findable(s, t.k) then s.(table := s.table[t.k := t.v], tasks := s.tasks[p := Idle])
                             else s.(failed := true, tasks := s.tasks[p := Idle])
       case Lookup(k) => t.Idle? && s' == s.(failed := s.failed || !Findable(s, k))
       case Clean => t.Idle? && s' == s.(table := map[])
  }

  ghost predicate IsRun(r: seq<State>, who: seq<nat>, acts: seq<Action>, n: nat, t: nat) {
    && |r| > 0 && |who| == |acts| == |r| - 1
    && Init(r[0], n, t)
    && (forall i | 0 <= i < |who| :: Step(r[i], r[i + 1], who[i], acts[i]))
  }

  ghost predicate Reachable(s: State, n: nat, t: nat) {
    exists r: seq<State>, who: seq<nat>, acts: seq<Action> :: IsRun(r, who, acts, n, t) && r[|r| - 1] == s
  }

  // ------------------------------------------------------------ room for all tasks

  function CheckedIn(ts: seq<Task>): nat {
    if ts == [] then 0 else CheckedIn(ts[..|ts| - 1]) + if ts[|ts| - 1].Checked? then 1 else 0
  }

  function CountedIn(ts: seq<Task>): nat {
    if ts == [] then 0 else CountedIn(ts[..|ts| - 1]) + if ts[|ts| - 1].Counted? then 1 else 0
  }

  lemma {:induction false} TaskChanges(ts: seq<Task>, p: nat, t: Task)
    requires p < |ts|
    ensures CheckedIn(ts[p := t]) - CheckedIn(ts) == (if t.Checked? then 1 else 0) - (if ts[p].Checked? then 1 else 0)
    ensures CountedIn(ts[p := t]) - CountedIn(ts) == (if t.Counted? then 1 else 0) - (if ts[p].Counted? then 1 else 0)
  {
    var n := |ts| - 1;
    if p < n {
      TaskChanges(ts[..n], p, t);
      assert ts[p := t][..n] == ts[..n][p := t];
    } else {
      assert ts[p := t][..n] == ts[..n];
    }
  }

  lemma {:induction false} TaskCounts(ts: seq<Task>)
    ensures CheckedIn(ts) + CountedIn(ts) <= |ts|
    ensures (forall p | 0 <= p < |ts| :: ts[p].Idle?) ==> CheckedIn(ts) == CountedIn(ts) == 0
    ensures (exists p | 0 <= p < |ts| :: ts[p].Idle?) ==> CheckedIn(ts) + CountedIn(ts) < |ts|
  {
    if ts != [] {
      var n := |ts| - 1;
      TaskCounts(ts[..n]);
      assert forall p | 0 <= p < n :: ts[..n][p] == ts[p];
    }
  }

  /** Every pair stored, or on the way after its count, has been counted; the load factor bounds the count,
      but for one item per task. */
  ghost predicate Inv(s: State, n: nat, t: nat) {
    && |s.tasks| == t && n <= s.size && !s.failed
    && |s.table| + CountedIn(s.tasks) <= s.items
    && 10 * (s.items + CheckedIn(s.tasks)) <= 7 * s.size + 10 * t
  }

  /** A free slot always remains. */
  lemma FreeSlot(s: State, n: nat, t: nat)
    requires Inv(s, n, t) && 10 * t < 3 * n
    ensures |s.table| + CountedIn(s.tasks) < s.size
  {
  }

  lemma StepInv(s: State, s': State, p: nat, a: Action, n: nat, t: nat)
    requires Inv(s, n, t) && 10 * t < 3 * n && Step(s, s', p, a)
    ensures Inv(s', n, t)
  {
    FreeSlot(s, n, t);
    TaskCounts(s.tasks);
    match a
    case CheckResize(k, v) => TaskChanges(s.tasks, p, Checked(k, v));
    case AddItem => TaskChanges(s.tasks, p, Counted(s.tasks[p].k, s.tasks[p].v));
    case Put => {
      TaskChanges(s.tasks, p, Idle);
      var k, v := s.tasks[p].k, s.tasks[p].v;
      PutSize(s.table, k, v);
    }
    case Lookup(k) =>
    case Clean =>
  }

  lemma {:induction false} RunInv(r: seq<State>, who: seq<nat>, acts: seq<Action>, n: nat, t: nat, i: nat)
    requires IsRun(r, who, acts, n, t) && 10 * t < 3 * n && i < |r|
    ensures Inv(r[i], n, t)
  {
    if i == 0 {
      TaskCounts(r[0].tasks);
    } else {
      hide Step, Inv;
      RunInv(r, who, acts, n, t, i - 1);
      assert Step(r[i - 1], r[i], who[i - 1], acts[i - 1]);
      StepInv(r[i - 1], r[i], who[i - 1], acts[i - 1], n, t);
    }
  }

  // ------------------------------------------------------------ what is put into the table

  /** Task `p` was called with `k` and `v` at step `j`, and has been in that call up to state `i`. */
  ghost predicate SameCall(r: seq<State>, who: seq<nat>, acts: seq<Action>, j: nat, i: nat, p: nat, k: int, v: int)
    requires |who| == |acts|
  {
    && j < i < |r| && i <= |who| && who[j] == p && acts[j] == CheckResize(k, v)
    && (forall m | j < m <= i :: p < |r[m].tasks| && HasArguments(r[m].tasks[p], k, v))
    && (forall m | j < m < i :: !(who[m] == p && acts[m].CheckResize?))
  }

  predicate HasArguments(t: Task, k: int, v: int) { !t.Idle? && t.k == k && t.v == v }

  lemma ArgumentStep(s: State, s': State, q: nat, a: Action, p: nat, k: int, v: int)
    requires Step(s, s', q, a) && p < |s'.tasks| && HasArguments(s'.tasks[p], k, v)
    ensures p < |s.tasks|
    ensures if q == p && a.CheckResize? then a == CheckResize(k, v) else HasArguments(s.tasks[p], k, v)
  {
  }

  lemma {:induction false} ArgumentsOf(r: seq<State>, who: seq<nat>, acts: seq<Action>, n: nat, t: nat,
                                       i: nat, p: nat, k: int, v: int)
    returns (j: nat)
    requires IsRun(r, who, acts, n, t) && i < |r| && p < |r[i].tasks| && HasArguments(r[i].tasks[p], k, v)
    ensures SameCall(r, who, acts, j, i, p, k, v)
    decreases i
  {
    hide Step;
    assert i > 0;
    assert Step(r[i - 1], r[i], who[i - 1], acts[i - 1]);
    ArgumentStep(r[i - 1], r[i], who[i - 1], acts[i - 1], p, k, v);
    if who[i - 1] == p && acts[i - 1].CheckResize? {
      j := i - 1;
    } else {
      hide Init;
      j := ArgumentsOf(r, who, acts, n, t, i - 1, p, k, v);
    }
  }

  /** `Second_Insert` stores just what its task was called with. */
  lemma PutsArguments(r: seq<State>, who: seq<nat>, acts: seq<Action>, n: nat, t: nat, i: nat)
    returns (j: nat, k: int, v: int)
    requires IsRun(r, who, acts, n, t) && i < |who| && acts[i].Put?
    ensures SameCall(r, who, acts, j, i, who[i], k, v)
    ensures if Findable(r[i], k) then r[i + 1].table == r[i].table[k := v] else r[i + 1].failed
  {
    assert Step(r[i], r[i + 1], who[i], acts[i]);
    k, v := r[i].tasks[who[i]].k, r[i].tasks[who[i]].v;
    j := ArgumentsOf(r, who, acts, n, t, i, who[i], k, v);
    hide IsRun;
  }

  // ------------------------------------------------------------ too many tasks

  lemma Reached(s: State, s': State, p: nat, a: Action, n: nat, t: nat)
    requires Reachable(s, n, t) && Step(s, s', p, a)
    ensures Reachable(s', n, t)
  {
    var r: seq<State>, who: seq<nat>, acts: seq<Action> :| IsRun(r, who, acts, n, t) && r[|r| - 1] == s;
    var r', who', acts' := r + [s'], who + [p], acts + [a];
    hide Init;
    forall i | 0 <= i < |who'|
      ensures Step(r'[i], r'[i + 1], who'[i], acts'[i])
    {
      if i < |who| {
        assert Step(r[i], r[i + 1], who[i], acts[i]);
      }
    }
    hide Step;
    assert IsRun(r', who', acts', n, t);
  }

  /** The keys 0 to m - 1. */
  function Keys(m: nat): (table: map<int, int>)
    ensures |table| == m && forall k :: k in table <==> 0 <= k < m
  {
    if m == 0 then map[] else
      var table := Keys(m - 1);
      assert table[m - 1 := 0].Keys == table.Keys + {m - 1};
      assert |table[m - 1 := 0]| == |table[m - 1 := 0].Keys|;
      table[m - 1 := 0]
  }

  /** Of `t` tasks, those from `i` to `j` have passed the check with the keys from `base` on. */
  function Waiting(t: nat, base: nat, i: nat, j: nat): seq<Task> {
    seq(t, q => if i <= q < j then Checked(base + q, 0) else Idle)
  }

  /** `j` pairs inserted one after the other. */
  lemma {:induction false} Sequential(n: nat, t: nat, j: nat)
    requires t > 0 && (j > 0 ==> 10 * (j - 1) <= 7 * n && j <= n)
    ensures Reachable(State(n, j, Keys(j), AllIdle(t), false), n, t)
  {
    var s := State(n, j, Keys(j), AllIdle(t), false);
    if j == 0 {
      assert IsRun([s], [], [], n, t);
      assert [s][|[s]| - 1] == s;
    } else {
      Sequential(n, t, j - 1);
      hide Reachable;
      var s0 := State(n, j - 1, Keys(j - 1), AllIdle(t), false);
      var s1 := s0.(tasks := s0.tasks[0 := Checked(j - 1, 0)]);
      Reached(s0, s1, 0, CheckResize(j - 1, 0), n, t);
      var s2 := s1.(items := j, tasks := s1.tasks[0 := Counted(j - 1, 0)]);
      Reached(s1, s2, 0, AddItem, n, t);
      assert s2.tasks[0 := Idle] == AllIdle(t);
      Reached(s2, s, 0, Put, n, t);
    }
  }

  /** Then `j` tasks pass the check before any of them counts. */
  lemma {:induction false} AllCheck(n: nat, t: nat, base: nat, j: nat)
    requires t > 0 && 10 * base <= 7 * n && base <= n && j <= t
    ensures Reachable(State(n, base, Keys(base), Waiting(t, base, 0, j), false), n, t)
  {
    var s := State(n, base, Keys(base), Waiting(t, base, 0, j), false);
    if j == 0 {
      Sequential(n, t, base);
      assert Waiting(t, base, 0, 0) == AllIdle(t);
    } else {
      AllCheck(n, t, base, j - 1);
      hide Reachable;
      var s0 := State(n, base, Keys(base), Waiting(t, base, 0, j - 1), false);
      assert Waiting(t, base, 0, j) == Waiting(t, base, 0, j - 1)[j - 1 := Checked(base + j - 1, 0)];
      Reached(s0, s, j - 1, CheckResize(base + j - 1, 0), n, t);
    }
  }

  /** And `i` of them finish. */
  lemma {:induction false} AllPut(n: nat, t: nat, base: nat, i: nat, j: nat)
    requires t > 0 && 10 * base <= 7 * n && i <= j <= t && base + j <= n
    ensures Reachable(State(n, base + i, Keys(base + i), Waiting(t, base, i, j), false), n, t)
  {
    var s := State(n, base + i, Keys(base + i), Waiting(t, base, i, j), false);
    if i == 0 {
      AllCheck(n, t, base, j);
    } else {
      AllPut(n, t, base, i - 1, j);
      hide Reachable;
      var s0 := State(n, base + i - 1, Keys(base + i - 1), Waiting(t, base, i - 1, j), false);
      var s1 := s0.(items := base + i, tasks := s0.tasks[i - 1 := Counted(base + i - 1, 0)]);
      Reached(s0, s1, i - 1, AddItem, n, t);
      assert s1.tasks[i - 1 := Idle] == Waiting(t, base, i, j);
      Reached(s1, s, i - 1, Put, n, t);
    }
  }

  lemma Fails(n: nat, t: nat) returns (s: State)
    requires n > 0 && t > 0 && 10 * t >= 3 * n
    ensures Reachable(s, n, t) && s.failed
  {
    var base := if t >= n then 0 else n - t;
    var m := n - base;
    AllPut(n, t, base, m, m);
    var s0 := State(n, n, Keys(n), Waiting(t, base, m, m), false);
    s := s0.(failed := true);
    hide Reachable;
    Reached(s0, s, 0, Lookup(-1), n, t);
  }

  /** `Find_Slot` never runs into its `Assert (False)`, whatever the tasks do. */
  ghost predicate NeverFails(n: nat, t: nat) {
    forall s | Reachable(s, n, t) :: !s.failed
  }

  /** `t` tasks on a table of initial size `n` are safe in all runs exactly when 10 t < 3 n; for one task
      that is n >= 4. */
  lemma NeverFailsIff(n: nat, t: nat)
    requires n > 0 && t > 0
    ensures NeverFails(n, t) <==> 10 * t < 3 * n
  {
    if 10 * t < 3 * n {
      forall s | Reachable(s, n, t)
        ensures !s.failed
      {
        var r: seq<State>, who: seq<nat>, acts: seq<Action> :| IsRun(r, who, acts, n, t) && r[|r| - 1] == s;
        RunInv(r, who, acts, n, t, |r| - 1);
      }
    } else {
      var s := Fails(n, t);
    }
  }

  /** In a safe table a free slot remains in every state, also when all tasks on their way have inserted. */
  lemma FreeSlotRemains(s: State, n: nat, t: nat)
    requires Reachable(s, n, t) && 10 * t < 3 * n
    ensures |s.table| + CountedIn(s.tasks) < s.size
  {
    var r: seq<State>, who: seq<nat>, acts: seq<Action> :| IsRun(r, who, acts, n, t) && r[|r| - 1] == s;
    RunInv(r, who, acts, n, t, |r| - 1);
    hide IsRun;
    FreeSlot(s, n, t);
  }

  // ------------------------------------------------------------ the probing table in the same run

  /** `Find_Slot` on the slots succeeds exactly when the step model says so. */
  lemma FindableIff(s: State, ps: seq<Pair<int, int>>, k: int)
    requires Distinct(ps) && s.table == Contents(ps) && s.size == |ps|
    ensures Findable(s, k) <==> HasFree(ps) || k in Contents(ps)
  {
    FreeIff(ps);
  }

  /** The table is what the state says. */
  ghost predicate Ties(h: GrowingHashmap<int, int>, s: State)
    reads h, h.pairs
  {
    h.Valid() && h.mapSize == s.size && h.itemNum == s.items && h.Map() == s.table
  }

  /** One step of the task in state `t`, carried out by the operations of the table. */
  method Perform(h: GrowingHashmap<int, int>, t: Task, a: Action, ghost s: State, ghost s': State, ghost p: nat)
    returns (t': Task, failed: bool)
    requires Step(s, s', p, a) && t == s.tasks[p] && Ties(h, s)
    modifies h, h.pairs
    ensures Ties(h, s') && s'.tasks == s.tasks[p := t'] && (s'.failed <==> s.failed || failed)
    ensures h.pairs == old(h.pairs) || fresh(h.pairs)
  {
    failed := false;
    match a {
      case CheckResize(k, v) =>
        var corrupt := h.CheckResize();
        t' := Checked(k, v);
      case AddItem =>
        h.itemNum := h.itemNum + 1;
        t' := Counted(t.k, t.v);
      case Put =>
        FindableIff(s, h.pairs[..], t.k);
        var ok := h.SecondInsert(t.k, t.v);
        failed := !ok;
        t' := Idle;
      case Lookup(k) =>
        FindableIff(s, h.pairs[..], k);
        var res := h.Lookup(k);
        failed := res.None?;
        t' := Idle;
      case Clean =>
        h.Clean();
        t' := Idle;
    }
  }

  /** Any run of the tasks, carried out on a new table of size `n`: `Find_Slot` fails in it exactly if the step
      model says so, and with 10 t < 3 n it never fails and there is a free slot at the end. */
  method Execute(n: nat, t: nat, hash: int -> nat, blank: Pair<int, int>, who: seq<nat>, acts: seq<Action>,
                 ghost r: seq<State>)
    returns (h: GrowingHashmap<int, int>, failed: bool)
    requires n > 0 && !blank.used && IsRun(r, who, acts, n, t)
    ensures fresh(h) && Ties(h, r[|r| - 1]) && (failed <==> r[|r| - 1].failed)
    ensures 10 * t < 3 * n ==> !failed && HasFree(h.pairs[..])
  {
    h := new GrowingHashmap<int, int>(n, hash, blank);
    failed := false;
    var tasks := AllIdle(t);
    for i := 0 to |acts|
      invariant fresh(h) && fresh(h.pairs) && Ties(h, r[i])
      invariant tasks == r[i].tasks && (failed <==> r[i].failed)
    {
      assert Step(r[i], r[i + 1], who[i], acts[i]);
      var task, fails := Perform(h, tasks[who[i]], acts[i], r[i], r[i + 1], who[i]);
      tasks := tasks[who[i] := task];
      failed := failed || fails;
    }
    if 10 * t < 3 * n {
      RunInv(r, who, acts, n, t, |r| - 1);
      FreeSlot(r[|r| - 1], n, t);
      FreeIff(h.pairs[..]);
    }
  }
}
