/** How long a round of k-means takes: the same number of steps in every interleaving, so it ends. */
module KMeansRounds {
  import opened KMeans
  import opened KMeansProof

  /** Chunks of three in `points` points. */
  function Chunks(points: nat): nat { (points + 2) / 3 }

  /** Each task is started, seen finished, and tests once whether there is a chunk for it, but for the task with the
      last chunk; each point is written, each chunk begun and ended; the main loop changes phase twice. */
  function RoundSteps(tasks: nat, points: nat): nat {
    3 * tasks + 2 + if points == 0 then 0 else points + 2 * Chunks(points) - 1
  }

  // ------------------------------------------------------------ the steps that are left

  /** The steps for the `rest` points that no task has been given yet: a task that would otherwise finish
      takes a chunk instead. */
  function Unassigned(rest: nat): nat {
    if rest == 0 then 0 else if rest <= CHUNK then rest + 1 else CHUNK + 2 + Unassigned(rest - CHUNK)
  }

  function Rest(points: nat, index: nat): nat { if index < points then points - index else 0 }

  /** From the head of its loop on, a task with the chunk at `start`. */
  function ForHead(points: nat, start: nat): nat {
    if start >= points then 2 else if start + CHUNK >= points then points - start + 3 else CHUNK + 4
  }

  function ForTask(points: nat, task: Task, t: nat): int {
    match task
    case AtStart => 1 + ForHead(points, t * CHUNK)
    case Head(start) => ForHead(points, start)
    case Work(start, stop, i) => stop - i + if start + CHUNK < points then 3 else 2
    case AtFinish => 1
    case _ => 0
  }

  function ForTasks(points: nat, ts: seq<Task>): int {
    if ts == [] then 0 else ForTasks(points, ts[..|ts| - 1]) + ForTask(points, ts[|ts| - 1], |ts| - 1)
  }

  function ForMain(m: Main): nat { if m.Start? then 2 else if m.Finish? then 1 else 0 }

  function Remaining(s: State): int {
    ForMain(s.main) + ForTasks(s.points, s.tasks) + Unassigned(Rest(s.points, s.index))
  }

  lemma {:induction false} TaskMoves(points: nat, ts: seq<Task>, t: nat, task: Task)
    requires t < |ts|
    ensures ForTasks(points, ts[t := task])
            == ForTasks(points, ts) - ForTask(points, ts[t], t) + ForTask(points, task, t)
  {
    var n := |ts| - 1;
    if t < n {
      TaskMoves(points, ts[..n], t, task);
      assert ts[t := task][..n] == ts[..n][t := task];
    } else {
      assert ts[t := task][..n] == ts[..n];
    }
  }

  /** The task that moves, and where to. */
  function Mover(s: State, a: Action): nat {
    match a
    case StartTask => if s.main.Start? then s.main.k else 0
    case FinishTask => if s.main.Finish? then s.main.k else 0
    case EnterChunk(t) => t
    case WritePoint(t, _) => t
    case AddIndex(t) => t
    case LastChunk(t) => t
    case _ => 0
  }

  predicate InRound(a: Action) { !a.ResetIndex? && !a.CollectCentres? && !a.RepeatTask? }

  /** What a step of a round does to the main loop, the index and one task. */
  lemma StepShape(s: State, s': State, a: Action)
    requires Step(s, s', a) && InRound(a)
    ensures s'.points == s.points && |s'.tasks| == |s.tasks|
    ensures var t := Mover(s, a);
            if t < |s.tasks| then s'.tasks == s.tasks[t := s'.tasks[t]] else s'.tasks == s.tasks
  {
  }

  /** Each step of a task leaves one step less for it and for the chunks still to be given out. */
  lemma TaskStep(s: State, s': State, a: Action)
    requires Step(s, s', a) && InRound(a) && !a.StartTask? && !a.FinishTask?
    requires RoundOk(s)
    ensures Mover(s, a) < |s.tasks| == |s'.tasks| && s'.main == s.main
    ensures var t := Mover(s, a);
            ForTask(s.points, s'.tasks[t], t) + Unassigned(Rest(s.points, s'.index)) + 1
            == ForTask(s.points, s.tasks[t], t) + Unassigned(Rest(s.points, s.index))
  {
    assert TaskOk(s, Mover(s, a));
    hide RoundOk;
  }

  lemma MainStep(s: State, s': State, a: Action)
    requires Step(s, s', a) && (a.StartTask? || a.FinishTask?) && |s'.tasks| == |s.tasks|
    ensures s'.index == s.index
    ensures var t := Mover(s, a);
            if t < |s.tasks|
            then s'.main.Start? == s.main.Start? && s'.main.Finish? == s.main.Finish?
                 && ForTask(s.points, s'.tasks[t], t) + 1 == ForTask(s.points, s.tasks[t], t)
            else ForMain(s'.main) + 1 == ForMain(s.main)
  {
  }

  lemma OneStepLess(s: State, s': State, a: Action)
    requires Inv(s) && Active(s.main) && Step(s, s', a) && InRound(a)
    ensures Remaining(s') == Remaining(s) - 1
  {
    StepShape(s, s', a);
    var t := Mover(s, a);
    if a.StartTask? || a.FinishTask? {
      MainStep(s, s', a);
    } else {
      TaskStep(s, s', a);
    }
    hide Step, Inv, RoundOk, ForTask, Unassigned;
    if t < |s.tasks| {
      TaskMoves(s.points, s.tasks, t, s'.tasks[t]);
    }
  }

  // ------------------------------------------------------------ at the start

  lemma {:induction false} UnassignedIs(rest: nat)
    requires rest > 0
    ensures Unassigned(rest) == rest + 2 * Chunks(rest) - 1
  {
    if rest > CHUNK {
      UnassignedIs(rest - CHUNK);
      assert Chunks(rest) == Chunks(rest - CHUNK) + 1;
    }
  }

  /** One task more means three steps more, whether it gets a chunk from the start or not. */
  lemma {:induction false} StartsWith(points: nat, ts: seq<Task>)
    requires forall t | 0 <= t < |ts| :: ts[t].AtStart?
    ensures ForTasks(points, ts) + Unassigned(Rest(points, |ts| * CHUNK)) == 3 * |ts| + Unassigned(points)
  {
    if ts != [] {
      StartsWith(points, ts[..|ts| - 1]);
    }
  }

  lemma AllToDo(s: State, s': State)
    requires Inv(s) && Step(s, s', ResetIndex)
    ensures Remaining(s') == RoundSteps(|s'.tasks|, s'.points)
  {
    forall t | 0 <= t < |s'.tasks|
      ensures s'.tasks[t].AtStart?
    {
      assert PhaseOk(s, t);
    }
    hide Inv;
    StartsWith(s'.points, s'.tasks);
    if s'.points > 0 {
      UnassignedIs(s'.points);
    }
  }

  // ------------------------------------------------------------ at the end

  lemma {:induction false} NoneToDo(points: nat, ts: seq<Task>)
    requires forall t | 0 <= t < |ts| :: ts[t].AtRepeat?
    ensures ForTasks(points, ts) == 0
  {
    if ts != [] {
      NoneToDo(points, ts[..|ts| - 1]);
    }
  }

  lemma {:induction false} NotNegative(s: State, n: nat)
    requires RoundOk(s) && n <= |s.tasks|
    ensures ForTasks(s.points, s.tasks[..n]) >= 0
  {
    if n > 0 {
      NotNegative(s, n - 1);
      assert s.tasks[..n][..n - 1] == s.tasks[..n - 1];
      assert TaskOk(s, n - 1);
      hide RoundOk;
    }
  }

  lemma CollectedIff(s: State)
    requires Inv(s) && Active(s.main)
    ensures Remaining(s) >= 0
    ensures s.main.Collect? <==> Remaining(s) == 0
  {
    NotNegative(s, |s.tasks|);
    assert s.tasks[..|s.tasks|] == s.tasks;
    if s.main.Collect? {
      forall t | 0 <= t < |s.tasks|
        ensures s.tasks[t].AtRepeat?
      {
        assert PhaseOk(s, t);
      }
      assert TaskOk(s, 0);
      NoneToDo(s.points, s.tasks);
    }
    hide Inv, ForTasks, Unassigned;
  }

  // ------------------------------------------------------------ every round

  lemma StaysInRound(s: State, s': State, a: Action)
    requires Step(s, s', a) && Active(s.main) && Active(s'.main)
    ensures InRound(a) && |s'.tasks| == |s.tasks| && s'.points == s.points
  {
  }

  /** In every run and every interleaving, a round that has begun at step `j` has, in each of its states, done
      and left to do as many steps as `RoundSteps` says; its centres are collected exactly after that many. */
  lemma {:induction false} RoundEnds(r: seq<State>, acts: seq<Action>, j: nat, i: nat)
    requires IsRun(r, acts) && j < i < |r| && acts[j].ResetIndex?
    requires forall m | j < m <= i :: Active(r[m].main)
    ensures i - j - 1 + Remaining(r[i]) == RoundSteps(|r[i].tasks|, r[i].points)
    ensures i - j - 1 <= RoundSteps(|r[i].tasks|, r[i].points)
    ensures r[i].main.Collect? <==> i - j - 1 == RoundSteps(|r[i].tasks|, r[i].points)
    decreases i
  {
    hide Step, Inv, Active, Remaining, RoundSteps, InRound;
    RunInv(r, acts, i - 1);
    RunInv(r, acts, i);
    assert Step(r[i - 1], r[i], acts[i - 1]);
    CollectedIff(r[i]);
    if i == j + 1 {
      AllToDo(r[j], r[i]);
    } else {
      RoundEnds(r, acts, j, i - 1);
      StaysInRound(r[i - 1], r[i], acts[i - 1]);
      OneStepLess(r[i - 1], r[i], acts[i - 1]);
    }
  }
}
