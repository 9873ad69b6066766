/** What the filter lock promises: at most n - l threads past level l, so at most one in the critical
    section, although resets overlap with locking. */
module FilterLockSafety {
  import opened FilterLock
  import opened SetFacts

  /** The threads that are past level `l`. */
  ghost function Past(s: State, l: nat): set<nat> {
    set p: nat | p < |s.threads| && Cleared(s.threads[p].pc, |s.threads|) >= l
  }

  /** The threads that have begun the reset after round `round`. */
  ghost function Gone(s: State, round: nat): set<nat> {
    set p: nat | p < |s.threads| && s.threads[p].round > round
  }

  /** The levels up to `l` whose victim entry nobody has reset since. */
  ghost function Guarded(s: State, l: nat, round: nat): set<nat> {
    set k: nat | 1 <= k <= l && k < |s.threads| && k !in Gone(s, round)
  }

  /** The state is in round `round` for all who compete. */
  ghost predicate InRound(s: State, round: nat) {
    forall p | 0 <= p < |s.threads| && Competing(s.threads[p].pc) :: s.threads[p].round == round
  }

  /** A guarded level keeps one thread back, unless only one is past it. */
  lemma GuardedLevel(s: State, l: nat, round: nat, x: nat, y: nat) returns (v: nat)
    requires Inv(s) && InRound(s, round) && 1 <= l < |s.threads| && s.threads[l].round == round
    requires x in Past(s, l) && y in Past(s, l) && x != y
    ensures v in Past(s, l - 1) - Past(s, l)
  {
    var n := |s.threads|;
    assert PcOk(s, x) && PcOk(s, y) && PcOk(s, l);
    assert VictimIn(s, l, x);
    v := VictimOf(s, l);
    var k := if v == x then y else x;
    assert PcOk(s, v);
    assert VictimOk(s, l, v, k);
    hide Inv;
  }

  lemma PastShrinks(s: State, l: nat)
    requires 1 <= l
    ensures Past(s, l) <= Past(s, l - 1)
  {
  }

  lemma NobodyPast(s: State, round: nat)
    requires InRound(s, round)
    ensures |Past(s, 0)| + |Guarded(s, 0, round)| + |Gone(s, round)| <= |s.threads|
  {
    assert Guarded(s, 0, round) == {};
    assert Past(s, 0) !! Gone(s, round) by {
      assert forall p | p in Past(s, 0) :: Competing(s.threads[p].pc);
    }
    Smaller(Past(s, 0) + Gone(s, round), Numbers(|s.threads|));
  }

  /** A guarded level lets fewer through. */
  lemma OneLess(s: State, l: nat, round: nat)
    requires Inv(s) && InRound(s, round) && 1 <= l < |s.threads| && s.threads[l].round == round
    ensures |Past(s, l)| <= 1 || |Past(s, l)| < |Past(s, l - 1)|
  {
    if |Past(s, l)| > 1 {
      PastShrinks(s, l);
      var x, y := TwoOf(Past(s, l));
      var v := GuardedLevel(s, l, round, x, y);
      hide *;
      Smaller(Past(s, l) + {v}, Past(s, l - 1));
    }
  }

  /** Every guarded level takes one off, down to one. */
  lemma {:induction false} PastBound(s: State, l: nat, round: nat)
    requires Inv(s) && InRound(s, round) && l < |s.threads|
    requires forall k | 0 <= k < |s.threads| :: s.threads[k].round >= round
    ensures |Past(s, l)| <= 1 || |Past(s, l)| + |Guarded(s, l, round)| + |Gone(s, round)| <= |s.threads|
  {
    hide Inv, Past, InRound;
    if l == 0 {
      NobodyPast(s, round);
    } else {
      PastBound(s, l - 1, round);
      if s.threads[l].round > round {
        PastShrinks(s, l);
        Smaller(Past(s, l), Past(s, l - 1));
        assert Guarded(s, l, round) == Guarded(s, l - 1, round);
      } else {
        OneLess(s, l, round);
        assert Guarded(s, l, round) == Guarded(s, l - 1, round) + {l};
      }
    }
  }

  /** Of the levels up to `l`, those not guarded belong to threads that are gone. */
  lemma GuardedSize(s: State, l: nat, round: nat)
    requires l < |s.threads|
    ensures |Guarded(s, l, round)| + |Gone(s, round)| >= l
  {
    assert Numbers(l + 1) <= Guarded(s, l, round) + Gone(s, round) + {0};
    Smaller(Numbers(l + 1), Guarded(s, l, round) + Gone(s, round) + {0});
  }

  lemma CompetitorRound(s: State, w: nat)
    requires Inv(s) && w < |s.threads| && Competing(s.threads[w].pc)
    ensures InRound(s, s.threads[w].round)
    ensures forall k | 0 <= k < |s.threads| :: s.threads[k].round >= s.threads[w].round
  {
    assert PcOk(s, w);
    forall k | 0 <= k < |s.threads|
      ensures s.threads[k].round >= s.threads[w].round
      ensures Competing(s.threads[k].pc) ==> s.threads[k].round == s.threads[w].round
    {
      SameRound(s, w, k);
    }
    hide Inv;
  }

  /** At most n - l threads are past level l. */
  lemma LevelBound(s: State, l: nat)
    requires Inv(s) && l < |s.threads|
    ensures |Past(s, l)| <= |s.threads| - l
  {
    if |Past(s, l)| > 1 {
      var w :| w in Past(s, l);
      CompetitorRound(s, w);
      PastBound(s, l, s.threads[w].round);
      GuardedSize(s, l, s.threads[w].round);
    }
  }

  lemma FilterBound(r: seq<State>, who: seq<nat>, acts: seq<Action>, i: nat, l: nat)
    requires IsRun(r, who, acts) && i < |r| && l < |r[i].threads|
    ensures |Past(r[i], l)| <= |r[i].threads| - l
  {
    hide Inv;
    RunInv(r, who, acts, i);
    LevelBound(r[i], l);
  }

  lemma MutualExclusion(r: seq<State>, who: seq<nat>, acts: seq<Action>, i: nat, p: nat, q: nat)
    requires IsRun(r, who, acts) && i < |r| && p < |r[i].threads| && q < |r[i].threads|
    requires r[i].threads[p].pc.Critical? && r[i].threads[q].pc.Critical?
    ensures p == q
  {
    hide Step, Init;
    var n := |r[i].threads|;
    FilterBound(r, who, acts, i, n - 1);
    if p != q {
      assert {p, q} <= Past(r[i], n - 1);
      Smaller({p, q}, Past(r[i], n - 1));
      assert false;
    }
  }

  /** No reset can disturb a thread's own round: whoever resets is ahead of all who compete. */
  lemma ResetterIsAhead(s: State, p: nat, w: nat)
    requires Inv(s) && p < |s.threads| && w < |s.threads|
    requires Resetting(s.threads[p].pc) && Competing(s.threads[w].pc)
    ensures s.threads[p].round == s.threads[w].round + 1
  {
    assert PcOk(s, p) && PcOk(s, w) && BarrierOk(s, w, p);
    assert BarrierOk(s, p, w);
  }

  /** The counters of the barrier never differ by more than one. */
  lemma CountersClose(s: State, p: nat, q: nat)
    requires Inv(s) && p < |s.threads| && q < |s.threads|
    ensures s.threads[p].ctr <= s.threads[q].ctr + 1
  {
    assert PcOk(s, p) && BarrierOk(s, p, q);
  }
}
