// What the heuristics of the allocator count: the two tests that allow a move to be coalesced say
// exactly what the graph would look like afterwards, and simplifying a register takes exactly one
// neighbour from each register that is still to be placed.

module CoalescingTests {
  import opened Machine
  import opened AllocState
  import opened PhysicalColors

  // ----- degrees -----

  lemma CountsBackAndForth(d: nat)
    requires d < SIZE_T
    ensures Down(d) < SIZE_T && Up(Down(d)) == d && Up(d) < SIZE_T && Down(Up(d)) == d
  {
  }

  lemma OneDecrement(s: State, t: Reg)
    ensures Decremented(s, t).degree == s.degree[t := Down(DegreeOf(s.degree, t))]
    ensures Decremented(s, t).edges == s.edges && Decremented(s, t).graph == s.graph
    ensures Decremented(s, t).coalesced == s.coalesced && Decremented(s, t).stacked == s.stacked
  {
  }

  lemma {:induction false} ManyDecrements(s: State, order: seq<Reg>, t: Reg)
    requires OnceEach(order)
    ensures DegreeOf(DecrementedBy(s, order).degree, t) ==
      if t in order then Down(DegreeOf(s.degree, t)) else DegreeOf(s.degree, t)
  {
    if order != [] {
      var init, last := order[..|order| - 1], order[|order| - 1];
      OnceInFront(order);
      ManyDecrements(s, init, t);
      OneDecrement(DecrementedBy(s, init), last);
      assert order == init + [last];
    }
  }

  /** Taking r off the graph: every neighbour that is neither on the stack nor coalesced loses one,
      and no other register does. */
  lemma SimplifyCounts(s: State, r: Reg, order: seq<Reg>, t: Reg)
    requires Lists(order, Pushed(s, r).Adjacent(r))
    ensures var loses := t in Entry(s.graph, r) && t !in s.coalesced && t !in s.stacked && t != r;
      DegreeOf(Simplified(s, r, order).degree, t) ==
        if loses then Down(DegreeOf(s.degree, t)) else DegreeOf(s.degree, t)
  {
    ManyDecrements(Pushed(s, r), order, t);
  }

  /** A register is on the spill list or the freeze list by right. */
  predicate OnRightList(s: State, x: Reg) {
    && (x in s.spill ==> DegreeOf(s.degree, x) >= TypeK(x.ty))
    && (x in s.freeze ==> DegreeOf(s.degree, x) < TypeK(x.ty))
  }

  /** Losing a neighbour keeps registers on the right lists: one whose degree gets low leaves the
      spill list then, and not before. */
  lemma DecrementKeepsLists(s: State, t: Reg, x: Reg)
    requires OnRightList(s, x) && 0 < DegreeOf(s.degree, t)
    ensures OnRightList(Decremented(s, t), x)
    ensures x in s.spill ==>
      (x in Decremented(s, t).spill <==> DegreeOf(Decremented(s, t).degree, x) >= TypeK(x.ty))
  {
    OneDecrement(s, t);
  }

  // ----- what combining adds -----

  lemma OneEdge(s: State, t: Reg, u: Reg)
    requires GraphOk(s.universe, s.edges, s.graph)
    ensures EdgeAdded(s, t, u).edges == if t.ty == u.ty && t != u then s.edges + {(t, u), (u, t)} else s.edges
    ensures u.Virt? ==>
      Entry(EdgeAdded(s, t, u).graph, u) == Entry(s.graph, u) + (if t.ty == u.ty && t != u then {t} else {})
  {
    if (t, u) in s.edges {
      assert (u, t) in s.edges;
    } else if t.ty == u.ty && t != u {
      NeighborsAfter(s.graph, t, u);
      NeighborsAfter(WithNeighbor(s.graph, t, u), u, t);
    }
  }

  /** The registers in order that can be neighbours of u. */
  function Fit(order: seq<Reg>, u: Reg): RegSet {
    set t | t in order && t.ty == u.ty && t != u
  }

  lemma FitOneMore(init: seq<Reg>, last: Reg, u: Reg)
    ensures Fit(init + [last], u) == Fit(init, u) + (if last.ty == u.ty && last != u then {last} else {})
  {
  }

  lemma OneTurn(s: State, u: Reg, t: Reg)
    requires s.Core({}) && u in s.universe && t in s.universe
    ensures var s', new_ := CombineTurn(s, u, t), if t.ty == u.ty && t != u then {t} else {};
      && s'.Core({}) && s'.universe == s.universe && s'.coalesced == s.coalesced && s'.stacked == s.stacked
      && (forall x :: (x, u) in s'.edges <==> (x, u) in s.edges || x in new_)
      && (u.Virt? ==> Entry(s'.graph, u) == Entry(s.graph, u) + new_)
  {
    OneEdge(s, t, u);
    OneDecrement(EdgeAdded(s, t, u), t);
    CombineTurnKeeps(s, u, t);
  }

  lemma {:induction false} ManyEdges(s: State, u: Reg, order: seq<Reg>)
    requires s.Core({}) && u in s.universe && forall t :: t in order ==> t in s.universe
    ensures var s' := CombinedBy(s, u, order);
      && s'.Core({}) && s'.universe == s.universe && s'.coalesced == s.coalesced && s'.stacked == s.stacked
      && (forall t :: (t, u) in s'.edges <==> (t, u) in s.edges || t in Fit(order, u))
      && (u.Virt? ==> Entry(s'.graph, u) == Entry(s.graph, u) + Fit(order, u))
  {
    if order != [] {
      var init, last := order[..|order| - 1], order[|order| - 1];
      var s1 := CombinedBy(s, u, init);
      FitOneMore(init, last, u);
      assert order == init + [last];
      ManyEdges(s, u, init);
      OneTurn(s1, u, last);
    }
  }

  lemma NeighborsFit(s: State, v: Reg, u: Reg, order: seq<Reg>)
    requires GraphOk(s.universe, s.edges, s.graph) && u.ty == v.ty && v.Virt? && (u, v) !in s.edges
    requires forall t :: t in order <==> t in s.Adjacent(v)
    ensures Fit(order, u) == s.Adjacent(v) && v !in Entry(s.graph, u) && v !in s.Adjacent(v)
    ensures forall t :: t in order ==> t in s.universe
  {
    forall t | t in s.Adjacent(v)
      ensures t.ty == u.ty && t != u && t in s.universe
    {
      assert (v, t) in s.edges && (t, v) in s.edges;
    }
  }

  lemma Overgrow(s: State, u: Reg)
    ensures var s' := Overgrown(s, u);
      s'.edges == s.edges && s'.graph == s.graph && s'.coalesced == s.coalesced && s'.stacked == s.stacked
  {
  }

  /** When v is combined with u, u gets the neighbours of v that are still there. */
  lemma CombinedNeighbors(s: State, u: Reg, v: Reg, order: seq<Reg>)
    requires s.Inv() && Mergeable(s, u, v) && (u, v) !in s.edges && Lists(order, Merged(s, u, v).Adjacent(v))
    ensures var s' := Combined(s, u, v, order);
      && (forall t :: (t, u) in s'.edges <==> (t, u) in s.edges || t in s.Adjacent(v))
      && (u.Virt? ==> s'.Adjacent(u) == s.Adjacent(u) + s.Adjacent(v))
  {
    var s1 := Merged(s, u, v);
    MergeKeepsCore(s, u, v);
    SameNeighbors(s, u, v);
    NeighborsFit(s, v, u, order);
    ManyEdges(s1, u, order);
    Overgrow(CombinedBy(s1, u, order), u);
    if u.Virt? {
      NeighborsOf(s, Combined(s, u, v, order), u, v);
    }
  }

  lemma SameNeighbors(s: State, u: Reg, v: Reg)
    requires GraphOk(s.universe, s.edges, s.graph)
    ensures Merged(s, u, v).Adjacent(v) == s.Adjacent(v)
  {
    assert (v, v) !in s.edges;
  }

  lemma NeighborsOf(s: State, s': State, u: Reg, v: Reg)
    requires Entry(s'.graph, u) == Entry(s.graph, u) + s.Adjacent(v) && s'.stacked == s.stacked
    requires s'.coalesced == s.coalesced + {v} && v !in Entry(s.graph, u) && v !in s.Adjacent(v)
    ensures s'.Adjacent(u) == s.Adjacent(u) + s.Adjacent(v)
  {
  }

  /** The test for a virtual register: it holds if and only if the combined register would have fewer
      neighbours of significant degree than there are colours. */
  lemma ConservativeExactly(s: State, u: Reg, v: Reg, order: seq<Reg>)
    requires s.Inv() && Mergeable(s, u, v) && (u, v) !in s.edges && Lists(order, Merged(s, u, v).Adjacent(v))
    requires u.Virt?
    ensures var hard := set t | t in Combined(s, u, v, order).Adjacent(u) && DegreeOf(s.degree, t) >= TypeK(t.ty);
      CanCombine(s, u, v) <==> |hard| < |AllocatableSet(u.ty)|
  {
    CombinedNeighbors(s, u, v, order);
    BoundIsNumberOfColors(u.ty);
    var hard := set t | t in Combined(s, u, v, order).Adjacent(u) && DegreeOf(s.degree, t) >= TypeK(t.ty);
    assert hard == Significant(s.degree, s.Adjacent(u) + s.Adjacent(v));
  }

  /** The test for a physical register: it holds if and only if that would get no new neighbour that
      is virtual and has a significant degree. */
  lemma ColoredAdjExactly(s: State, u: Reg, v: Reg, order: seq<Reg>)
    requires s.Inv() && Mergeable(s, u, v) && (u, v) !in s.edges && Lists(order, Merged(s, u, v).Adjacent(v))
    requires u.Phys?
    ensures CanCombine(s, u, v) <==>
      forall t :: (t, u) in Combined(s, u, v, order).edges && (t, u) !in s.edges ==>
        t.Phys? || DegreeOf(s.degree, t) < TypeK(t.ty)
  {
    CombinedNeighbors(s, u, v, order);
  }
}
