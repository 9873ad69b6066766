/** The queue refines an abstract first-in-first-out sequence. */
module MsQueueFifo {
  import opened MsQueue
  import opened MsQueueProof

  ghost predicate Live(nodes: map<Ptr, Node>, order: seq<Ptr>) {
    forall i | 0 <= i < |order| :: order[i] in nodes
  }

  /** The elements of the nodes with index `a` up to `b`. */
  ghost function Values(nodes: map<Ptr, Node>, order: seq<Ptr>, a: nat, b: nat): seq<int>
    requires Live(nodes, order) && a <= b <= |order|
  {
    seq(b - a, i requires 0 <= i < b - a => nodes[order[a + i]].elem)
  }

  /** The abstract queue when an enqueue takes effect at the link. */
  ghost function Linked(s: State): seq<int>
    requires ListOk(s)
  {
    Values(s.nodes, s.order, s.f + 1, |s.order|)
  }

  /** The abstract queue when an enqueue takes effect at the step that swings `last`. */
  ghost function Swung(s: State): seq<int>
    requires ListOk(s)
  {
    Values(s.nodes, s.order, s.f + 1, s.l + 1)
  }

  predicate Swings(a: Action) { a.HelpOk? || a.SwingOk? || a.DeqHelpOk? }

  /** What one step does to the two abstract queues. */
  ghost predicate Effect(s: State, s': State, p: nat, a: Action)
    requires ListOk(s) && ListOk(s') && p < |s.threads|
  {
    var pc := s.threads[p].pc;
    if a.LinkOk? then
      pc.EnqLink? && pc.n in s.nodes && Linked(s') == Linked(s) + [s.nodes[pc.n].elem] && Swung(s') == Swung(s)
    else if Swings(a) then
      Linked(s') == Linked(s) && |Swung(s)| < |Linked(s)| && Swung(s') == Swung(s) + [Linked(s)[|Swung(s)|]]
    else if a.TakeOk? then
      pc.DeqCas? && Linked(s) == [pc.elem] + Linked(s') && Swung(s) == [pc.elem] + Swung(s')
    else
      Linked(s') == Linked(s) && Swung(s') == Swung(s)
  }

  lemma ValuesKept(nodes: map<Ptr, Node>, nodes': map<Ptr, Node>, order: seq<Ptr>, order': seq<Ptr>, a: nat, b: nat)
    requires Live(nodes, order) && Live(nodes', order') && a <= b <= |order| && order <= order'
    requires forall x | x in nodes :: x in nodes' && nodes'[x].elem == nodes[x].elem
    ensures Values(nodes, order, a, b) == Values(nodes', order', a, b)
  {
  }

  lemma ValuesEnd(nodes: map<Ptr, Node>, order: seq<Ptr>, a: nat, b: nat)
    requires Live(nodes, order) && a <= b < |order|
    ensures Values(nodes, order, a, b + 1) == Values(nodes, order, a, b) + [nodes[order[b]].elem]
  {
  }

  lemma ValuesHead(nodes: map<Ptr, Node>, order: seq<Ptr>, a: nat, b: nat)
    requires Live(nodes, order) && a < b <= |order|
    ensures Values(nodes, order, a, b) == [nodes[order[a]].elem] + Values(nodes, order, a + 1, b)
  {
  }

  lemma LinkFacts(s: State, s': State, p: nat)
    requires DoLinkOk(s, s', p) && PcOk(s, p) && Grows(s, s')
    ensures s.threads[p].pc.EnqLink?
    ensures var n := s.threads[p].pc.n;
            && n in s.nodes && s'.nodes[n].elem == s.nodes[n].elem && s'.order[|s.order|] == n
            && s'.f == s.f && s'.l == s.l && |s'.order| == |s.order| + 1
    ensures s.order <= s'.order
    ensures forall x | x in s.nodes :: x in s'.nodes && s'.nodes[x].elem == s.nodes[x].elem
  {
  }

  lemma LinkValues(nodes: map<Ptr, Node>, nodes': map<Ptr, Node>, order: seq<Ptr>, order': seq<Ptr>, a: nat, b: nat)
    requires Live(nodes, order) && Live(nodes', order') && a <= b <= |order|
    requires order <= order' && |order'| == |order| + 1 && order'[|order|] in nodes
    requires forall x | x in nodes :: x in nodes' && nodes'[x].elem == nodes[x].elem
    ensures Values(nodes', order', a, |order'|) == Values(nodes, order, a, |order|) + [nodes[order'[|order|]].elem]
    ensures Values(nodes', order', a, b) == Values(nodes, order, a, b)
  {
    hide Values, Live;
    ValuesKept(nodes, nodes', order, order', a, |order|);
    ValuesKept(nodes, nodes', order, order', a, b);
    ValuesEnd(nodes', order', a, |order|);
  }

  lemma ListShape(s: State)
    requires ListOk(s)
    ensures Live(s.nodes, s.order) && s.f <= s.l < |s.order|
  {
  }

  lemma LinkEffect(s: State, s': State, p: nat)
    requires ListOk(s) && ListOk(s') && DoLinkOk(s, s', p) && PcOk(s, p) && Grows(s, s')
    ensures Effect(s, s', p, LinkOk)
  {
    hide ListOk, PcOk, Values, DoLinkOk, Live, Grows;
    LinkFacts(s, s', p);
    ListShape(s);
    ListShape(s');
    LinkValues(s.nodes, s'.nodes, s.order, s'.order, s.f + 1, s.l + 1);
  }

  lemma SwingFacts(s: State, s': State, p: nat, a: Action)
    requires ListOk(s) && ListOk(s') && Swings(a) && Step(s, s', p, a)
    ensures s'.order == s.order && s'.nodes == s.nodes && s'.f == s.f && s'.l == s.l + 1 && p < |s.threads|
  {
  }

  lemma SwingEffect(s: State, s': State, p: nat, a: Action)
    requires ListOk(s) && ListOk(s') && Swings(a) && Step(s, s', p, a)
    ensures p < |s.threads| && Effect(s, s', p, a)
  {
    SwingFacts(s, s', p, a);
    hide Step;
    ValuesEnd(s.nodes, s.order, s.f + 1, s.l + 1);
  }

  lemma TakeEffect(s: State, s': State, p: nat)
    requires ListOk(s) && ListOk(s') && DoTakeOk(s, s', p) && PcOk(s, p) && s.threads[p].pc.fi == s.f
    ensures Effect(s, s', p, TakeOk)
  {
    assert s.nodes[s.order[s.f + 1]].elem == s.threads[p].pc.elem;
    assert s.f < s.l;
    hide PcOk, Values, ListOk;
    ListShape(s);
    ValuesHead(s.nodes, s.order, s.f + 1, |s.order|);
    ValuesHead(s.nodes, s.order, s.f + 1, s.l + 1);
  }

  /** The step leaves the linked list and all elements alone. */
  ghost predicate Quiet(s: State, s': State) {
    && s'.order == s.order && s'.f == s.f && s'.l == s.l
    && (forall x | x in s.nodes :: x in s'.nodes && s'.nodes[x].elem == s.nodes[x].elem)
  }

  lemma QuietStep(s: State, s': State, p: nat, a: Action)
    requires Step(s, s', p, a) && !a.LinkOk? && !Swings(a) && !a.TakeOk?
    ensures Quiet(s, s') && p < |s.threads|
  {
  }

  lemma QuietEffect(s: State, s': State, p: nat, a: Action)
    requires ListOk(s) && ListOk(s') && Quiet(s, s') && p < |s.threads| && !a.LinkOk? && !Swings(a) && !a.TakeOk?
    ensures Effect(s, s', p, a)
  {
    ValuesKept(s.nodes, s'.nodes, s.order, s'.order, s.f + 1, |s.order|);
    ValuesKept(s.nodes, s'.nodes, s.order, s'.order, s.f + 1, s.l + 1);
  }

  lemma InvParts(s: State, p: nat)
    requires Inv(s) && p < |s.threads|
    ensures ListOk(s) && PcOk(s, p)
  {
    hide ListOk, PcOk, OwnersOk, SwingDue;
  }

  lemma StepThreads(s: State, s': State, p: nat, a: Action)
    requires Step(s, s', p, a)
    ensures p < |s.threads| == |s'.threads|
  {
  }

  lemma LinkOkEffect(s: State, s': State, p: nat)
    requires ListOk(s) && ListOk(s') && p < |s.threads| && PcOk(s, p) && Step(s, s', p, LinkOk)
    ensures Effect(s, s', p, LinkOk)
  {
    hide ListOk, PcOk, Effect, Grows, DoLinkOk;
    LinkOkList(s, s', p);
    LinkEffect(s, s', p);
  }

  lemma TakeOkEffect(s: State, s': State, p: nat)
    requires ListOk(s) && ListOk(s') && p < |s.threads| && PcOk(s, p) && Step(s, s', p, TakeOk)
    ensures Effect(s, s', p, TakeOk)
  {
    hide ListOk, PcOk, Effect, Grows;
    TakeOkList(s, s', p);
    TakeEffect(s, s', p);
  }

  lemma OtherEffect(s: State, s': State, p: nat, a: Action)
    requires ListOk(s) && ListOk(s') && p < |s.threads| && Step(s, s', p, a)
    requires !a.LinkOk? && !Swings(a) && !a.TakeOk?
    ensures Effect(s, s', p, a)
  {
    hide ListOk, Effect, Step, Quiet;
    QuietStep(s, s', p, a);
    QuietEffect(s, s', p, a);
  }

  lemma StepEffect(s: State, s': State, p: nat, a: Action)
    requires Inv(s) && Step(s, s', p, a)
    ensures Inv(s') && p < |s.threads| == |s'.threads| && Effect(s, s', p, a)
  {
    hide Inv, Step, ListOk, PcOk, Effect;
    StepInv(s, s', p, a);
    StepThreads(s, s', p, a);
    InvParts(s, p);
    InvParts(s', p);
    if a.LinkOk? {
      LinkOkEffect(s, s', p);
    } else if Swings(a) {
      SwingEffect(s, s', p, a);
    } else if a.TakeOk? {
      TakeOkEffect(s, s', p);
    } else {
      OtherEffect(s, s', p, a);
    }
  }

  // ------------------------------------------------------------ first in, first out

  /** The elements enqueued by the first `i` steps, in link order. */
  ghost function Produced(r: seq<State>, who: seq<nat>, acts: seq<Action>, i: nat): seq<int>
    requires i <= |who| == |acts| && |r| == |who| + 1
  {
    if i == 0 then []
    else
      var s, p := r[i - 1], who[i - 1];
      Produced(r, who, acts, i - 1)
      + if acts[i - 1].LinkOk? && p < |s.threads| && s.threads[p].pc.EnqLink? && s.threads[p].pc.n in s.nodes
        then [s.nodes[s.threads[p].pc.n].elem] else []
  }

  /** The elements dequeued by the first `i` steps, in the order they were taken. */
  ghost function Consumed(r: seq<State>, who: seq<nat>, acts: seq<Action>, i: nat): seq<int>
    requires i <= |who| == |acts| && |r| == |who| + 1
  {
    if i == 0 then []
    else
      var s, p := r[i - 1], who[i - 1];
      Consumed(r, who, acts, i - 1)
      + if acts[i - 1].TakeOk? && p < |s.threads| && s.threads[p].pc.DeqCas? then [s.threads[p].pc.elem] else []
  }

  lemma StepBalance(s: State, s': State, p: nat, a: Action, before: seq<int>, produced: seq<int>)
    requires Inv(s) && Inv(s') && p < |s.threads| && Effect(s, s', p, a) && produced == before + Linked(s)
    ensures a.LinkOk? ==> s.threads[p].pc.EnqLink? && s.threads[p].pc.n in s.nodes
    ensures a.LinkOk? ==> produced + [s.nodes[s.threads[p].pc.n].elem] == before + Linked(s')
    ensures a.TakeOk? ==> s.threads[p].pc.DeqCas? && produced == before + [s.threads[p].pc.elem] + Linked(s')
    ensures !a.LinkOk? && !a.TakeOk? ==> produced == before + Linked(s')
  {
    hide Linked, Swung, Inv;
  }

  /** In every run the elements leave in the order they were linked, each exactly once. */
  lemma {:induction false} FirstInFirstOut(r: seq<State>, who: seq<nat>, acts: seq<Action>, i: nat)
    requires IsRun(r, who, acts) && i < |r|
    ensures Inv(r[i])
    ensures Produced(r, who, acts, i) == Consumed(r, who, acts, i) + Linked(r[i])
  {
    hide Step, Inv, Linked, Effect;
    RunInv(r, who, acts, i);
    if i == 0 {
      InitEmpty(r[0]);
    } else {
      FirstInFirstOut(r, who, acts, i - 1);
      var s, s', p, a := r[i - 1], r[i], who[i - 1], acts[i - 1];
      assert Step(s, s', p, a);
      hide IsRun;
      StepEffect(s, s', p, a);
      StepBalance(s, s', p, a, Consumed(r, who, acts, i - 1), Produced(r, who, acts, i - 1));
    }
  }

  lemma InitEmpty(s: State)
    requires Init(s)
    ensures Inv(s) && Linked(s) == [] && Swung(s) == []
  {
    InitInv(s);
  }
}
