// Keeping physical registers off the select stack.
//
// A physical register gets on the simplify list in two ways only: a freeze finds that it has no
// move left, or its degree is counted down to the bound.  Degrees of physical registers start
// at 0 and are only ever counted down, so that they wrap around at once and then stay far above
// the bound, for as long as a round can last.  The budget below is how long that is.

module PhysicalNodes {
  import opened Machine
  import opened AllocState
  import opened Interference

  lemma {:induction false} CardAtMost<T>(a: set<T>, b: set<T>)
    requires a <= b
    ensures |a| <= |b|
  {
    if a != {} {
      var x :| x in a;
      CardAtMost(a - {x}, b - {x});
    }
  }

  lemma CardLess<T>(a: set<T>, b: set<T>, x: T)
    requires a <= b && x in b && x !in a
    ensures |a| < |b|
  {
    CardAtMost(a, b - {x});
  }

  lemma CardOneMore<T>(a: set<T>, b: set<T>, x: T)
    requires a <= b + {x}
    ensures |a| <= |b| + 1
  {
    CardAtMost(a - {x}, b);
  }

  /** How many turns of the inner loop can still take away neighbours. */
  ghost function Budget(s: State): nat {
    3 * |Unplaced(s)| + 2 * |Again(s)| + |AgainSoon(s)| + |s.Pending()|
  }

  /** A degree that was 0 and has been counted down by at most room - left. */
  predicate Drifts(d: nat, left: nat, room: nat) {
    d == 0 || d + room >= SIZE_T + left
  }

  /** A physical register that no freeze can list: it has no pending move to lose, or its degree
      has wrapped around, or freezing leaves physical registers alone. */
  ghost predicate OutOfReach(s: State, p: Reg, follow: bool) {
    follow || DegreeOf(s.degree, p) != 0 || s.NodeMoves(p) == {}
  }

  ghost predicate Apart(s: State, p: Reg, room: nat, follow: bool) {
    && p.Phys? && p !in s.Waiting()
    && Budget(s) <= room && room + 32 < SIZE_T
    && Drifts(DegreeOf(s.degree, p), Budget(s), room)
    && OutOfReach(s, p, follow)
  }

  /** What one turn of the inner loop means for p. */
  ghost predicate Leaves(s: State, s': State, p: Reg, follow: bool) {
    && Budget(s') <= Budget(s)
    && (|| DegreeOf(s'.degree, p) == DegreeOf(s.degree, p)
        || (DegreeOf(s'.degree, p) == Down(DegreeOf(s.degree, p)) && Budget(s') < Budget(s)))
    && p !in s'.Waiting()
    && (OutOfReach(s, p, follow) && DegreeOf(s'.degree, p) == 0 ==> OutOfReach(s', p, follow))
  }

  lemma LeavesKeepsApart(s: State, s': State, p: Reg, room: nat, follow: bool)
    requires Apart(s, p, room, follow) && Leaves(s, s', p, follow)
    ensures Apart(s', p, room, follow)
  {
  }

  // ----- simplify -----

  lemma DecrementDegrees(s: State, t: Reg, p: Reg)
    ensures DegreeOf(Decremented(s, t).degree, p) == if p == t then Down(DegreeOf(s.degree, p))
      else DegreeOf(s.degree, p)
    ensures p in Decremented(s, t).Waiting() ==> p in s.Waiting() || (p == t && DegreeOf(s.degree, p) == TypeK(p.ty))
  {
    var s1 := DegreeLowered(s, t);
    if DegreeOf(s.degree, t) == TypeK(t.ty) {
      var s2 := MovesEnabled(s1, Enabled(s.moveList, s.active, s.Adjacent(t) + {t}));
      RelistLists(s2, t, p);
    }
  }

  lemma RelistLists(s: State, t: Reg, p: Reg)
    ensures Relisted(s, t).degree == s.degree
    ensures p in Relisted(s, t).Waiting() ==> p in s.Waiting() || p == t
  {
  }

  lemma {:induction false} DecrementsDegrees(s: State, order: seq<Reg>, p: Reg)
    requires OnceEach(order)
    ensures DegreeOf(DecrementedBy(s, order).degree, p)
      == if p in order then Down(DegreeOf(s.degree, p)) else DegreeOf(s.degree, p)
    ensures p in DecrementedBy(s, order).Waiting() ==> p in s.Waiting() || DegreeOf(s.degree, p) == TypeK(p.ty)
  {
    if order != [] {
      var init, last := order[..|order| - 1], order[|order| - 1];
      OnceInFront(order);
      DecrementsDegrees(s, init, p);
      DecrementDegrees(DecrementedBy(s, init), last, p);
    }
  }

  /** What a push does to the sets that the budget counts. */
  lemma PushedPlaces(s: State, r: Reg)
    requires r in s.simplify && r in s.universe
    ensures var s1 := Pushed(s, r);
      && Unplaced(s1) == Unplaced(s) - {r} && Again(s1) <= Again(s) + {r} && AgainSoon(s1) <= AgainSoon(s)
      && r !in AgainSoon(s1) && s1.Pending() == s.Pending() && s1.Waiting() == s.Waiting()
      && (r in Placed(s) ==> Unplaced(s1) == Unplaced(s) && Again(s1) <= Again(s) && r in AgainSoon(s))
      && (r !in Placed(s) ==> r in Unplaced(s))
  {
  }

  lemma RelaxedPlaces(s: State, s': State)
    requires Relaxes(s, s')
    ensures Unplaced(s') == Unplaced(s) && Again(s') <= Again(s) && AgainSoon(s') <= AgainSoon(s)
    ensures s'.Pending() == s.Pending()
    ensures forall p :: s'.NodeMoves(p) == s.NodeMoves(p)
  {
  }

  lemma BudgetOf(s: State, s': State)
    requires Again(s') <= Again(s) && AgainSoon(s') <= AgainSoon(s) && s'.Pending() <= s.Pending()
    requires Unplaced(s') <= Unplaced(s)
    ensures Budget(s') <= Budget(s)
  {
    CardAtMost(Unplaced(s'), Unplaced(s));
    CardAtMost(Again(s'), Again(s));
    CardAtMost(AgainSoon(s'), AgainSoon(s));
    CardAtMost(s'.Pending(), s.Pending());
  }

  lemma PushCosts(s: State, r: Reg)
    requires r in s.simplify && r in s.universe
    ensures Budget(Pushed(s, r)) < Budget(s)
  {
    var s1 := Pushed(s, r);
    PushedPlaces(s, r);
    if r in Placed(s) {
      CardAtMost(Again(s1), Again(s));
      CardLess(AgainSoon(s1), AgainSoon(s), r);
    } else {
      CardOneMore(Again(s1), Again(s), r);
      CardAtMost(AgainSoon(s1), AgainSoon(s));
    }
  }

  /** Taking neighbours away: no budget is added, and p loses at most one. */
  lemma DecrementsFrom(s: State, order: seq<Reg>, p: Reg)
    requires s.Core({}) && OnceEach(order) && forall r :: r in order ==> r in s.universe && r !in Placed(s)
    ensures var s' := DecrementedBy(s, order);
      && Budget(s') <= Budget(s) && s'.NodeMoves(p) == s.NodeMoves(p)
      && DegreeOf(s'.degree, p) == (if p in order then Down(DegreeOf(s.degree, p)) else DegreeOf(s.degree, p))
      && (p in s'.Waiting() ==> p in s.Waiting() || DegreeOf(s.degree, p) == TypeK(p.ty))
  {
    var s' := DecrementedBy(s, order);
    DecrementsRelax(s, order);
    RelaxedPlaces(s, s');
    BudgetOf(s, s');
    DecrementsDegrees(s, order, p);
  }

  lemma NeighborsUnplaced(s: State, r: Reg, order: seq<Reg>)
    requires GraphOk(s.universe, s.edges, s.graph) && Lists(order, s.Adjacent(r))
    ensures forall t :: t in order ==> t in s.universe && t !in Placed(s)
  {
    AdjacentKnown(s, r);
  }

  /** The same once more, seen from a register that is apart. */
  lemma LossLeaves(s: State, s': State, p: Reg, room: nat, follow: bool)
    requires Apart(s, p, room, follow) && Budget(s') < Budget(s)
    requires s'.NodeMoves(p) == s.NodeMoves(p)
    requires DegreeOf(s'.degree, p) == Down(DegreeOf(s.degree, p)) || DegreeOf(s'.degree, p) == DegreeOf(s.degree, p)
    requires p in s'.Waiting() ==> p in s.Waiting() || DegreeOf(s.degree, p) == TypeK(p.ty)
    ensures Leaves(s, s', p, follow)
  {
  }

  lemma SimplifyLeaves(s: State, r: Reg, order: seq<Reg>, p: Reg, room: nat, follow: bool)
    requires s.Inv() && r in s.simplify && Lists(order, Pushed(s, r).Adjacent(r))
    requires Apart(s, p, room, follow)
    ensures Leaves(s, Simplified(s, r, order), p, follow)
  {
    var s1 := Pushed(s, r);
    PushKeeps(s, r);
    NeighborsUnplaced(s1, r, order);
    PushedPlaces(s, r);
    PushCosts(s, r);
    DecrementsFrom(s1, order, p);
    LossLeaves(s, DecrementedBy(s1, order), p, room, follow);
  }

  // ----- coalesce -----

  /** Nothing is placed, and none of the lists of placed registers grows. */
  ghost predicate Spares(s: State, s': State) {
    && s'.universe == s.universe && Placed(s') == Placed(s) && Again(s') <= Again(s) && AgainSoon(s') <= AgainSoon(s)
    && s'.Pending() <= s.Pending()
  }

  lemma EdgeSpares(s: State, u: Reg, t: Reg, p: Reg)
    ensures var s' := EdgeAdded(s, u, t);
      && Spares(s, s') && s'.Waiting() == s.Waiting() && s'.NodeMoves(p) == s.NodeMoves(p)
      && (p.Phys? ==> DegreeOf(s'.degree, p) == DegreeOf(s.degree, p))
  {
  }

  lemma CombineTurnSpares(s: State, u: Reg, t: Reg, p: Reg)
    requires s.Core({}) && u in s.universe && t in s.universe && t !in Placed(s) && p.Phys?
    ensures var s' := CombineTurn(s, u, t);
      && Spares(s, s') && s'.NodeMoves(p) == s.NodeMoves(p)
      && DegreeOf(s'.degree, p) == (if p == t then Down(DegreeOf(s.degree, p)) else DegreeOf(s.degree, p))
      && (p in s'.Waiting() ==> p in s.Waiting() || (p == t && DegreeOf(s.degree, p) == TypeK(p.ty)))
  {
    var s1 := EdgeAdded(s, t, u);
    EdgeSpares(s, t, u, p);
    EdgeKeepsCore(s, t, u, {});
    DecrementRelaxes(s1, t, {});
    RelaxedPlaces(s1, Decremented(s1, t));
    DecrementDegrees(s1, t, p);
  }

  /** p loses at most one neighbour, and no move; it is listed only on the way to the bound. */
  ghost predicate LosesOne(s: State, s': State, p: Reg) {
    && Spares(s, s') && s'.NodeMoves(p) == s.NodeMoves(p)
    && (DegreeOf(s'.degree, p) == DegreeOf(s.degree, p) || DegreeOf(s'.degree, p) == Down(DegreeOf(s.degree, p)))
    && (p in s'.Waiting() ==> p in s.Waiting() || DegreeOf(s.degree, p) == TypeK(p.ty))
  }

  lemma {:induction false} CombinedBySpares(s: State, u: Reg, order: seq<Reg>, p: Reg)
    requires s.Core({}) && u in s.universe && p.Phys? && OnceEach(order)
    requires forall t :: t in order ==> t in s.universe && t !in Placed(s)
    ensures LosesOne(s, CombinedBy(s, u, order), p) && CombinedBy(s, u, order).Core({})
    ensures p !in order ==> DegreeOf(CombinedBy(s, u, order).degree, p) == DegreeOf(s.degree, p)
  {
    if order != [] {
      var init, last := order[..|order| - 1], order[|order| - 1];
      OnceInFront(order);
      CombinedBySpares(s, u, init, p);
      CombineTurnsKeep(s, u, init);
      CombineTurnSpares(CombinedBy(s, u, init), u, last, p);
      CombineTurnKeeps(CombinedBy(s, u, init), u, last);
    }
  }

  lemma MergedPlaces(s: State, u: Reg, v: Reg, p: Reg)
    requires s.Core({}) && Mergeable(s, u, v) && p.Phys?
    ensures var s' := Merged(s, u, v);
      && s'.universe == s.universe && Unplaced(s') == Unplaced(s) - {v} && v in Unplaced(s)
      && Again(s') <= Again(s) && AgainSoon(s') <= AgainSoon(s) && s'.Pending() == s.Pending()
      && s'.Waiting() <= s.Waiting() && DegreeOf(s'.degree, p) == DegreeOf(s.degree, p)
      && (p != u ==> s'.NodeMoves(p) == s.NodeMoves(p))
  {
  }

  lemma SparedBudget(s: State, s': State)
    requires Spares(s, s')
    ensures Budget(s') <= Budget(s) && Unplaced(s') == Unplaced(s)
  {
    assert Unplaced(s') == s'.universe - Placed(s');
    assert Unplaced(s) == s.universe - Placed(s);
    BudgetOf(s, s');
  }

  lemma MergeCosts(s: State, u: Reg, v: Reg, p: Reg)
    requires s.Core({}) && Mergeable(s, u, v) && p.Phys?
    ensures Budget(Merged(s, u, v)) < Budget(s)
  {
    var s' := Merged(s, u, v);
    MergedPlaces(s, u, v, p);
    CardLess(Unplaced(s'), Unplaced(s), v);
    CardAtMost(Again(s'), Again(s));
    CardAtMost(AgainSoon(s'), AgainSoon(s));
  }

  /** Like LosesOne, but nothing happens to p at all. */
  ghost predicate Bypasses(s: State, s': State, p: Reg) {
    && Spares(s, s') && s'.NodeMoves(p) == s.NodeMoves(p) && DegreeOf(s'.degree, p) == DegreeOf(s.degree, p)
    && (p in s'.Waiting() ==> p in s.Waiting())
  }

  lemma LosesThenBypasses(s: State, s': State, s'': State, p: Reg)
    requires LosesOne(s, s', p) && Bypasses(s', s'', p)
    ensures LosesOne(s, s'', p)
  {
  }

  /** Moving u between lists, when u is not placed. */
  lemma ReleaseBypasses(s: State, u: Reg, p: Reg)
    requires u !in Placed(s) && p.Phys?
    ensures Bypasses(s, Released(s, u), p) && Placed(Released(s, u)) == Placed(s)
  {
  }

  lemma OvergrownBypasses(s: State, u: Reg, p: Reg)
    requires u !in Placed(s) && p.Phys?
    ensures Bypasses(s, Overgrown(s, u), p) && Placed(Overgrown(s, u)) == Placed(s)
  {
  }

  lemma CombinedLosesOne(s: State, u: Reg, order: seq<Reg>, p: Reg)
    requires s.Core({}) && u in s.universe && u !in Placed(s) && p.Phys? && OnceEach(order)
    requires forall t :: t in order ==> t in s.universe && t !in Placed(s)
    ensures LosesOne(s, Released(Overgrown(CombinedBy(s, u, order), u), u), p)
  {
    CombinedBySpares(s, u, order, p);
    var s3 := CombinedBy(s, u, order);
    OvergrownBypasses(s3, u, p);
    var s4 := Overgrown(s3, u);
    LosesThenBypasses(s, s3, s4, p);
    ReleaseBypasses(s4, u, p);
    LosesThenBypasses(s, s4, Released(s4, u), p);
  }

  lemma MergeLeaves(s: State, s2: State, s': State, p: Reg, room: nat, follow: bool)
    requires Apart(s, p, room, follow) && LosesOne(s2, s', p) && Budget(s2) < Budget(s) && Budget(s') <= Budget(s2)
    requires p !in s2.Waiting() && DegreeOf(s2.degree, p) == DegreeOf(s.degree, p)
    requires follow || DegreeOf(s.degree, p) != 0 || s2.NodeMoves(p) == s.NodeMoves(p)
    ensures Leaves(s, s', p, follow)
  {
  }

  lemma CombineLeaves(s: State, u: Reg, v: Reg, order: seq<Reg>, p: Reg, room: nat, follow: bool)
    requires s.Core({}) && Mergeable(s, u, v) && Lists(order, Merged(s, u, v).Adjacent(v))
    requires Apart(s, p, room, follow)
    requires u == p ==> follow || DegreeOf(s.degree, p) != 0
    ensures Leaves(s, Released(Combined(s, u, v, order), u), p, follow)
  {
    MergeKeepsCore(s, u, v);
    NeighborsUnplaced(Merged(s, u, v), v, order);
    CombinedLosesOne(Merged(s, u, v), u, order, p);
    var s2, s' := Merged(s, u, v), Released(Combined(s, u, v, order), u);
    MergedPlaces(s, u, v, p);
    MergeCosts(s, u, v, p);
    SparedBudget(s2, s');
    MergeLeaves(s, s2, s', p, room, follow);
  }

  /** Like Bypasses, but moves may be given up. */
  ghost predicate Relieves(s: State, s': State, p: Reg) {
    && Spares(s, s') && s'.NodeMoves(p) <= s.NodeMoves(p) && DegreeOf(s'.degree, p) == DegreeOf(s.degree, p)
    && (p in s'.Waiting() ==> p in s.Waiting())
  }

  lemma RelievesThenLeaves(s: State, s': State, s'': State, p: Reg, follow: bool)
    requires Relieves(s, s', p) && Leaves(s', s'', p, follow)
    ensures Leaves(s, s'', p, follow)
  {
    SparedBudget(s, s');
  }

  lemma RelievesKeepsApart(s: State, s': State, p: Reg, room: nat, follow: bool)
    requires Relieves(s, s', p) && Apart(s, p, room, follow)
    ensures Leaves(s, s', p, follow) && Apart(s', p, room, follow)
  {
    SparedBudget(s, s');
  }

  lemma TakenRelieves(s: State, m: Move, p: Reg)
    requires m in s.worklist
    ensures Relieves(s, MoveTaken(s, m), p)
  {
  }

  lemma BypassesRelieves(s: State, s': State, s'': State, p: Reg)
    requires Relieves(s, s', p) && Bypasses(s', s'', p)
    ensures Relieves(s, s'', p)
  {
  }

  lemma PostponedRelieves(s: State, m: Move, p: Reg)
    requires m in s.worklist
    ensures Relieves(s, Postponed(s, m), p)
  {
    assert Postponed(s, m).Pending() == s.Pending();
  }

  lemma DecidedRelieves(s: State, m: Move, u: Reg, v: Reg, p: Reg)
    requires m in s.worklist && u !in Placed(s) && v !in Placed(s) && p.Phys?
    ensures Relieves(s, Released(MoveTaken(s, m), u), p)
    ensures Relieves(s, Released(Released(MoveTaken(s, m), u), v), p)
  {
    var s1 := MoveTaken(s, m);
    TakenRelieves(s, m, p);
    ReleaseBypasses(s1, u, p);
    var s2 := Released(s1, u);
    BypassesRelieves(s, s1, s2, p);
    ReleaseBypasses(s2, v, p);
    BypassesRelieves(s, s2, Released(s2, v), p);
  }

  lemma CombinedMoveLeaves(s: State, m: Move, u: Reg, v: Reg, order: seq<Reg>, p: Reg, room: nat, follow: bool)
    requires s.Inv() && m in s.worklist && Mergeable(MoveTaken(s, m), u, v) && m in Entry(s.moveList, u)
    requires Lists(order, Merged(MoveTaken(s, m), u, v).Adjacent(v))
    requires Apart(s, p, room, follow)
    ensures Leaves(s, Released(Combined(MoveTaken(s, m), u, v, order), u), p, follow)
  {
    var s1 := MoveTaken(s, m);
    TakenKeeps(s, m);
    TakenRelieves(s, m, p);
    RelievesKeepsApart(s, s1, p, room, follow);
    assert m in s.NodeMoves(u);
    CombineLeaves(s1, u, v, order, p, room, follow);
    RelievesThenLeaves(s, s1, Released(Combined(s1, u, v, order), u), p, follow);
  }

  lemma DecidedLeaves(s: State, m: Move, u: Reg, v: Reg, order: seq<Reg>, p: Reg, room: nat, follow: bool)
    requires s.Inv() && m in s.worklist && m in Entry(s.moveList, u)
    requires u !in Placed(s) && v !in Placed(s)
    requires u != v && v.Virt? ==> Mergeable(MoveTaken(s, m), u, v)
    requires OrderFits(MoveTaken(s, m), u, v, order)
    requires Apart(s, p, room, follow)
    ensures Leaves(s, Decided(MoveTaken(s, m), m, u, v, order), p, follow)
  {
    if u == v || v.Phys? || (u, v) in s.edges {
      DecidedRelieves(s, m, u, v, p);
      RelievesKeepsApart(s, Decided(MoveTaken(s, m), m, u, v, order), p, room, follow);
    } else if CanCombine(MoveTaken(s, m), u, v) {
      CombinedMoveLeaves(s, m, u, v, order, p, room, follow);
    } else {
      PostponedRelieves(s, m, p);
      assert Decided(MoveTaken(s, m), m, u, v, order) == Postponed(s, m);
      RelievesKeepsApart(s, Postponed(s, m), p, room, follow);
    }
  }

  lemma CoalesceLeaves(s: State, m: Move, order: seq<Reg>, p: Reg, room: nat, follow: bool)
    requires s.Inv() && m in s.worklist && s.simplify == {}
    requires var (u, v) := Ends(s.rep, m); OrderFits(MoveTaken(s, m), u, v, order)
    requires Apart(s, p, room, follow)
    ensures Leaves(s, Coalesced(s, m, order), p, follow)
  {
    var (u, v) := Ends(s.rep, m);
    EndsOk(s, m);
    assert MoveOk(m, s.universe, s.nodes, s.moveList, s.rep);
    DecidedLeaves(s, m, u, v, order, p, room, follow);
  }

  // ----- freeze -----

  /** One move is given up, and at most one register listed for it. */
  ghost predicate Trades(s: State, s': State, x: Reg) {
    && Unplaced(s') == Unplaced(s) && Placed(s') == Placed(s)
    && Again(s') <= Again(s) && AgainSoon(s') <= AgainSoon(s) + {x}
    && s'.Pending() < s.Pending()
  }

  lemma TradeIsFair(s: State, s': State, x: Reg)
    requires Trades(s, s', x)
    ensures Budget(s') <= Budget(s)
  {
    var m :| m in s.Pending() && m !in s'.Pending();
    CardLess(s'.Pending(), s.Pending(), m);
    CardAtMost(Again(s'), Again(s));
    CardOneMore(AgainSoon(s'), AgainSoon(s), x);
  }

  lemma DropPlaces(s: State, m: Move, p: Reg)
    requires m in s.Pending() && s.worklist !! s.active
    ensures var s' := MoveDropped(s, m);
      && Unplaced(s') == Unplaced(s) && Placed(s') == Placed(s) && Again(s') == Again(s) &&
        AgainSoon(s') == AgainSoon(s)
      && s'.Pending() < s.Pending() && s'.NodeMoves(p) <= s.NodeMoves(p) && s'.Waiting() == s.Waiting()
      && s'.degree == s.degree
  {
    assert m !in MoveDropped(s, m).Pending();
  }

  lemma ThawPlaces(s: State, v: Reg, p: Reg)
    ensures var s' := Thawed(s, v);
      && Unplaced(s') == Unplaced(s) && Placed(s') == Placed(s)
      && Again(s') <= Again(s) && AgainSoon(s') <= AgainSoon(s) + {v}
      && s'.Pending() == s.Pending() && s'.NodeMoves(p) == s.NodeMoves(p) && s'.degree == s.degree
      && (p in s'.Waiting() ==> p in s.Waiting() || (p == v && DegreeOf(s.degree, p) < TypeK(p.ty)))
  {
  }

  lemma FreezeTurnTrades(s: State, u: Reg, m: Move, p: Reg, follow: bool)
    requires m in s.Pending() && s.worklist !! s.active
    ensures var s', v := FreezeTurn(s, u, m, follow), FarEnd(s.rep, u, m, follow);
      && Trades(s, s', v) && s'.NodeMoves(p) <= s.NodeMoves(p) && s'.degree == s.degree
      && (p in s'.Waiting() ==>
            p in s.Waiting() || (p == v && !(follow && p.Phys?) && DegreeOf(s.degree, p) < TypeK(p.ty)))
  {
    var v := FarEnd(s.rep, u, m, follow);
    DropPlaces(s, m, p);
    ThawPlaces(MoveDropped(s, m), v, p);
  }

  /** p is not at the far end of a move it is not in, and with a wrapped degree it is not listed. */
  lemma FreezePassesBy(s: State, m: Move, v: Reg, p: Reg, room: nat, follow: bool)
    requires m in s.Pending() && m in Entry(s.moveList, v)
    requires Apart(s, p, room, follow)
    ensures !(p == v && !(follow && p.Phys?) && DegreeOf(s.degree, p) < TypeK(p.ty))
  {
    if p == v {
      assert m in s.NodeMoves(p);
    }
  }

  lemma LeftAlone(s: State, s': State, p: Reg, room: nat, follow: bool)
    requires Apart(s, p, room, follow) && Budget(s') <= Budget(s)
    requires s'.degree == s.degree && s'.NodeMoves(p) <= s.NodeMoves(p) && p !in s'.Waiting()
    ensures Apart(s', p, room, follow)
  {
  }

  lemma FreezeTurnLeaves(s: State, u: Reg, m: Move, p: Reg, room: nat, follow: bool, exempt: RegSet)
    requires s.Core(exempt) && m in s.Pending() && s.worklist !! s.active
    requires Apart(s, p, room, follow)
    ensures Apart(FreezeTurn(s, u, m, follow), p, room, follow)
    ensures Budget(FreezeTurn(s, u, m, follow)) <= Budget(s)
  {
    var s', v := FreezeTurn(s, u, m, follow), FarEnd(s.rep, u, m, follow);
    FreezeTurnTrades(s, u, m, p, follow);
    TradeIsFair(s, s', v);
    FarEndKnown(s, u, m, follow, exempt);
    FreezePassesBy(s, m, v, p, room, follow);
    LeftAlone(s, s', p, room, follow);
  }

  lemma StillPending(s: State, u: Reg, order: seq<Move>, follow: bool)
    requires s.Core({u}) && (forall m :: m in order ==> m in s.Pending()) && s.worklist !! s.active && OnceEach(order)
    requires order != []
    ensures var init, last := order[..|order| - 1], order[|order| - 1];
      && OnceEach(init) && (forall m :: m in init ==> m in s.Pending())
      && var s1 := FrozenBy(s, u, init, follow);
         s1.Core({u}) && last in s1.Pending() && s1.worklist !! s1.active
  {
    var init, last := order[..|order| - 1], order[|order| - 1];
    OnceInFront(order);
    FreezeTurnsAdvance(s, u, init, follow);
    AdvanceKeepsCore(s, FrozenBy(s, u, init, follow), {u});
  }

  /** All of a freeze, from a state in which u is listed already. */
  lemma {:induction false} FreezeTurnsLeave(s: State, u: Reg, order: seq<Move>, p: Reg, room: nat, follow: bool)
    requires s.Core({u}) && (forall m :: m in order ==> m in s.Pending()) && s.worklist !! s.active && OnceEach(order)
    requires Apart(s, p, room, follow)
    ensures Apart(FrozenBy(s, u, order, follow), p, room, follow)
    ensures Budget(FrozenBy(s, u, order, follow)) <= Budget(s)
  {
    if order != [] {
      StillPending(s, u, order, follow);
      FreezeTurnsLeave(s, u, order[..|order| - 1], p, room, follow);
      FreezeTurnLeaves(FrozenBy(s, u, order[..|order| - 1], follow), u, order[|order| - 1], p, room, follow, {u});
    }
  }

  lemma StartLeaves(s: State, u: Reg, p: Reg, room: nat, follow: bool)
    requires u in s.freeze + s.spill && Apart(s, p, room, follow) && s.freeze !! s.spill
    ensures Apart(Started(s, u), p, room, follow) && Budget(Started(s, u)) <= Budget(s)
  {
    var s0 := Started(s, u);
    assert s0.Waiting() == s.Waiting() && s0.Pending() == s.Pending() && Placed(s0) == Placed(s);
    if u in Placed(s) {
      CardLess(Again(s0), Again(s), u);
      CardOneMore(AgainSoon(s0), AgainSoon(s), u);
    } else {
      BudgetOf(s, s0);
    }
  }

  // ----- the turns of the inner loop -----

  ghost predicate AllApart(s: State, ps: RegSet, room: nat, follow: bool) {
    forall p {:trigger p in ps} :: p in ps ==> Apart(s, p, room, follow)
  }

  lemma SimplifyKeepsApart(s: State, r: Reg, order: seq<Reg>, ps: RegSet, room: nat, follow: bool)
    requires s.Inv() && r in s.simplify && Lists(order, Pushed(s, r).Adjacent(r)) && AllApart(s, ps, room, follow)
    ensures AllApart(Simplified(s, r, order), ps, room, follow)
  {
    forall p | p in ps
      ensures Apart(Simplified(s, r, order), p, room, follow)
    {
      SimplifyLeaves(s, r, order, p, room, follow);
      LeavesKeepsApart(s, Simplified(s, r, order), p, room, follow);
    }
  }

  lemma CoalesceKeepsApart(s: State, m: Move, order: seq<Reg>, ps: RegSet, room: nat, follow: bool)
    requires s.Inv() && m in s.worklist && s.simplify == {} && AllApart(s, ps, room, follow)
    requires var (u, v) := Ends(s.rep, m); OrderFits(MoveTaken(s, m), u, v, order)
    ensures AllApart(Coalesced(s, m, order), ps, room, follow)
  {
    forall p | p in ps
      ensures Apart(Coalesced(s, m, order), p, room, follow)
    {
      CoalesceLeaves(s, m, order, p, room, follow);
      LeavesKeepsApart(s, Coalesced(s, m, order), p, room, follow);
    }
  }

  lemma FreezeKeepsApart(s: State, u: Reg, order: seq<Move>, ps: RegSet, room: nat, follow: bool)
    requires s.Inv() && s.worklist !! s.active && AllApart(s, ps, room, follow)
    requires u in s.freeze + s.spill && ListsMoves(order, s.NodeMoves(u)) && OnceEach(order)
    ensures AllApart(FrozenBy(Started(s, u), u, order, follow), ps, room, follow)
  {
    StartedLists(s, Started(s, u), u, order);
    forall p | p in ps
      ensures Apart(FrozenBy(Started(s, u), u, order, follow), p, room, follow)
    {
      StartLeaves(s, u, p, room, follow);
      FreezeTurnsLeave(Started(s, u), u, order, p, room, follow);
    }
  }

  /** s' is a state that one turn can end in: what the heuristics leave open is an existential. */
  ghost predicate Turn(s: State, s': State, follow: bool) {
    if s.simplify != {} then
      exists r, order {:trigger Simplified(s, r, order)} ::
        r in s.simplify && Lists(order, Pushed(s, r).Adjacent(r)) && s' == Simplified(s, r, order)
    else if s.worklist != {} then
      exists m, order {:trigger Coalesced(s, m, order)} ::
        m in s.worklist && CoalesceFits(s, m, order) && s' == Coalesced(s, m, order)
    else
      exists u, order {:trigger FrozenBy(Started(s, u), u, order, follow)} ::
        && u in (if s.freeze != {} then s.freeze else s.spill)
        && ListsMoves(order, s.NodeMoves(u)) && OnceEach(order) && s' == FrozenBy(Started(s, u), u, order, follow)
  }

  ghost predicate CoalesceFits(s: State, m: Move, order: seq<Reg>) {
    var (u, v) := Ends(s.rep, m); OrderFits(MoveTaken(s, m), u, v, order)
  }

  // ----- the beginning and the end of the loop -----

  /** The physical registers that may get on the select stack: those that a move names, and whose
      degree is not known to have wrapped around. */
  ghost function Exposed(s: State, moves: Moves, room: nat, follow: bool): RegSet {
    set p | p in s.universe && p.Phys? && !Sheltered(s, moves, p, room, follow)
  }

  ghost predicate Sheltered(s: State, moves: Moves, p: Reg, room: nat, follow: bool) {
    && Drifts(DegreeOf(s.degree, p), 3 * |s.universe| + |moves|, room)
    && (follow || DegreeOf(s.degree, p) != 0 || (Entry(s.moveList, p) * moves == {} && Naming(moves, p) == {}))
  }

  lemma BudgetAtStart(s: State, moves: Moves)
    requires s.coalesced == s.stacked == {} && s.Pending() == moves
    ensures Budget(s) == 3 * |s.universe| + |moves|
  {
    assert Unplaced(s) == s.universe && Again(s) == {} && AgainSoon(s) == {};
  }

  lemma ShelteredIsApart(s0: State, s: State, moves: Moves, p: Reg, room: nat, follow: bool)
    requires p.Phys? && p !in s.Waiting() && s.coalesced == s.stacked == {} && s.Pending() == moves
    requires s.universe == s0.universe && DegreeOf(s.degree, p) == DegreeOf(s0.degree, p)
    requires Entry(s.moveList, p) == Entry(s0.moveList, p) + Naming(moves, p)
    requires Sheltered(s0, moves, p, room, follow) && 3 * |s.universe| + |moves| <= room && room + 32 < SIZE_T
    ensures Apart(s, p, room, follow)
  {
    BudgetAtStart(s, moves);
    assert s.NodeMoves(p) == (Entry(s0.moveList, p) + Naming(moves, p)) * moves;
  }

  /** When the nodes have been listed, all physical registers are apart that are not exposed. */
  lemma ListedAreApart(s0: State, s1: State, s: State, moves: Moves, room: nat, follow: bool)
    requires Begun(s0) && Builds(s0, s1) && Adds(s0, s1) && s1.worklist == moves && s0.active <= moves
    requires s == s1.(simplify := s.simplify, freeze := s.freeze, spill := s.spill)
    requires s.simplify + s.freeze + s.spill == s.nodes
    requires 3 * |s.universe| + |moves| <= room && room + 32 < SIZE_T
    ensures AllApart(s, PhysIn(s0.universe) - Exposed(s0, moves, room, follow), room, follow)
  {
    assert s.Pending() == moves && s.Waiting() == s.nodes;
    forall p | p in PhysIn(s0.universe) - Exposed(s0, moves, room, follow)
      ensures Apart(s, p, room, follow)
    {
      AddedFor(s0, s1, p);
      ShelteredIsApart(s0, s, moves, p, room, follow);
    }
  }

  lemma AddedFor(s0: State, s1: State, p: Reg)
    requires Adds(s0, s1) && p.Phys?
    ensures DegreeOf(s1.degree, p) == DegreeOf(s0.degree, p)
    ensures Entry(s1.moveList, p) == Entry(s0.moveList, p) + Naming(s1.worklist, p)
  {
  }

  lemma OnlyExposedStacked(s: State, exposed: RegSet, room: nat, follow: bool)
    requires s.Inv() && AllApart(s, PhysIn(s.universe) - exposed, room, follow)
    ensures PhysIn(s.stacked) <= exposed
    ensures forall p :: p in PhysIn(s.universe) - exposed ==> Drifts(DegreeOf(s.degree, p), 0, room)
  {
    assert s.stacked <= s.Waiting() && s.Waiting() <= s.universe;
    forall p | p in PhysIn(s.stacked)
      ensures p in exposed
    {
      assert p in PhysIn(s.universe) - exposed ==> Apart(s, p, room, follow);
    }
  }

  lemma ProperWithMore(nodes: RegSet, inter: Pairs, color: ColorMap, except: RegSet, more: RegSet)
    requires ProperColoring(nodes, inter, color, except) && except <= more
    ensures ProperColoring(nodes, inter, color, more)
  {
  }

  /** In the first round of a function the exposed registers are those that its moves name. */
  lemma ExposedAtFirst(s: State, moves: Moves, room: nat, p: Reg)
    requires Begun(s) && Blank(s)
    ensures p in Exposed(s, moves, room, false) <==> p in s.universe && p.Phys? && Naming(moves, p) != {}
    ensures Exposed(s, moves, room, true) == {}
  {
  }

  /** In a later round they are among those that have lost no neighbour yet; if freezing leaves
      physical registers alone, there are none. */
  lemma ExposedLater(s: State, moves: Moves, room: nat, room': nat, follow: bool)
    requires forall p :: p in PhysIn(s.universe) ==> Drifts(DegreeOf(s.degree, p), 0, room)
    requires room + 3 * |s.universe| + |moves| <= room'
    ensures forall p :: p in Exposed(s, moves, room', follow) ==> !follow && DegreeOf(s.degree, p) == 0
  {
    forall p | p in Exposed(s, moves, room', follow)
      ensures !follow && DegreeOf(s.degree, p) == 0
    {
      assert p in PhysIn(s.universe);
    }
  }
}
