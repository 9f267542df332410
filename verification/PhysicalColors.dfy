// Which physical registers may be handed out, and which colours a round can give.

module PhysicalColors {
  import opened Machine
  import opened AllocState

  // ----- the registers by their names -----

  const RA := Phys(General, 1)
  const TP := Phys(General, 2)
  const R21 := Phys(General, 21)

  function A(i: nat): Reg { Phys(General, i + 4) }
  function T(i: nat): Reg { Phys(General, i + 12) }
  function S(i: nat): Reg { Phys(General, i + 23) }
  function FA(i: nat): Reg { Phys(Float, i) }
  function FT(i: nat): Reg { Phys(Float, i + 8) }
  function FS(i: nat): Reg { Phys(Float, i + 24) }
  function FCC(i: nat): Reg { Phys(FloatCmp, i) }

  /** The registers that a function hands back as it found them. */
  function CalleeSaved(): RegSet {
    {RA} + (set i: nat | i < 9 :: S(i)) + (set i: nat | i < 8 :: FS(i))
  }

  /** The registers that a call may overwrite. */
  function CallerSaved(): RegSet {
    (set i: nat | i < 8 :: A(i)) + (set i: nat | i < 9 :: T(i)) + (set i: nat | i < 8 :: FA(i))
    + (set i: nat | i < 16 :: FT(i)) + (set i: nat | i < 8 :: FCC(i))
  }

  /** The registers with a role of their own. */
  const RESERVED: RegSet := {ZERO, TP, SP, R21, FP}

  /** How many registers of a type there are. */
  function RegsOfType(ty: RegType): nat { if ty == FloatCmp then 8 else 32 }

  lemma SavedById(r: Reg)
    ensures r in CalleeSaved() + CallerSaved() <==> r.Phys? && r !in RESERVED && r.id < RegsOfType(r.ty)
  {
    if r.Phys? {
      match r.ty
      case General =>
        assert 4 <= r.id < 12 ==> r == A(r.id - 4);
        assert 12 <= r.id < 21 ==> r == T(r.id - 12);
        assert 23 <= r.id < 32 ==> r == S(r.id - 23);
      case Float =>
        assert r.id < 8 ==> r == FA(r.id);
        assert 8 <= r.id < 24 ==> r == FT(r.id - 8);
        assert 24 <= r.id < 32 ==> r == FS(r.id - 24);
      case FloatCmp =>
        assert r.id < 8 ==> r == FCC(r.id);
    }
  }

  /** The registers that may be handed out are exactly those that a caller or a callee saves, and
      none of them is reserved. */
  lemma AllocatableAreSaved(r: Reg)
    ensures r in AllocatableSet(r.ty) <==> r in CalleeSaved() + CallerSaved()
    ensures r in AllocatableSet(r.ty) ==> r !in RESERVED
  {
    SavedById(r);
    assert r.Phys? && r.id < 32 && Allocatable(r) ==> r == Phys(r.ty, r.id);
  }

  function FirstRegs(ty: RegType, n: nat): RegSet { set id: nat | id < n :: Phys(ty, id) }

  lemma {:induction false} FirstRegsSize(ty: RegType, n: nat)
    ensures |FirstRegs(ty, n)| == n
  {
    if n > 0 {
      FirstRegsSize(ty, n - 1);
      assert FirstRegs(ty, n) == FirstRegs(ty, n - 1) + {Phys(ty, n - 1)};
    }
  }

  /** The bound that the allocator compares degrees with is the number of colours. */
  lemma BoundIsNumberOfColors(ty: RegType)
    ensures |AllocatableSet(ty)| == TypeK(ty)
  {
    forall r: Reg | r.ty == ty
      ensures r in AllocatableSet(ty) <==>
        r in FirstRegs(ty, RegsOfType(ty)) && r !in RESERVED
    {
      AllocatableAreSaved(r);
      SavedById(r);
      assert r.Phys? ==> r == Phys(ty, r.id);
    }
    FirstRegsSize(ty, RegsOfType(ty));
    if ty == General {
      assert FirstRegs(ty, 32) == AllocatableSet(ty) + RESERVED;
      assert |RESERVED| == 5 && AllocatableSet(ty) !! RESERVED;
      assert |AllocatableSet(ty) + RESERVED| == |AllocatableSet(ty)| + 5;
    } else {
      assert AllocatableSet(ty) == FirstRegs(ty, RegsOfType(ty));
    }
  }

  // ----- physical registers that virtual ones are joined with -----

  /** The physical registers that virtual ones have been joined with, or still may be. */
  function Hosts(s: State): RegSet {
    (set v | v in s.rep && s.rep[v].Phys? :: s.rep[v]) + NamedBy(s.Pending())
  }

  /** The physical registers that some moves name. */
  function NamedBy(ms: Moves): RegSet {
    (set m | m in ms && m.dst.Phys? :: m.dst) + (set m | m in ms && m.src.Phys? :: m.src)
  }

  /** No new ones from s to s'. */
  ghost predicate NoNewHosts(s: State, s': State) {
    s'.Pending() <= s.Pending() && Hosts(s') <= Hosts(s)
  }

  lemma NothingJoined(s: State, s': State)
    requires s'.rep == s.rep && s'.Pending() <= s.Pending()
    ensures NoNewHosts(s, s')
  {
  }

  lemma HostsAtFirst(s: State, moves: Moves)
    requires s.rep == map[] && s.Pending() == moves
    ensures Hosts(s) == NamedBy(moves)
  {
  }

  lemma DecrementHosts(s: State, t: Reg)
    ensures Decremented(s, t).rep == s.rep && Decremented(s, t).Pending() == s.Pending()
  {
    var e := Enabled(s.moveList, s.active, s.Adjacent(t) + {t});
    assert s.worklist + e + (s.active - e) == s.Pending();
  }

  lemma {:induction false} DecrementsHosts(s: State, order: seq<Reg>)
    ensures DecrementedBy(s, order).rep == s.rep && DecrementedBy(s, order).Pending() == s.Pending()
  {
    if order != [] {
      DecrementsHosts(s, order[..|order| - 1]);
      DecrementHosts(DecrementedBy(s, order[..|order| - 1]), order[|order| - 1]);
    }
  }

  lemma {:induction false} CombinesHosts(s: State, u: Reg, order: seq<Reg>)
    ensures CombinedBy(s, u, order).rep == s.rep && CombinedBy(s, u, order).Pending() == s.Pending()
  {
    if order != [] {
      var s1, t := CombinedBy(s, u, order[..|order| - 1]), order[|order| - 1];
      CombinesHosts(s, u, order[..|order| - 1]);
      DecrementHosts(EdgeAdded(s1, t, u), t);
    }
  }

  lemma {:induction false} FreezesHosts(s: State, u: Reg, order: seq<Move>, follow: bool)
    ensures FrozenBy(s, u, order, follow).rep == s.rep && FrozenBy(s, u, order, follow).Pending() <= s.Pending()
  {
    if order != [] {
      FreezesHosts(s, u, order[..|order| - 1], follow);
    }
  }

  lemma SimplifyHosts(s: State, r: Reg, order: seq<Reg>)
    ensures NoNewHosts(s, Simplified(s, r, order))
  {
    DecrementsHosts(Pushed(s, r), order);
    assert Pushed(s, r).Pending() == s.Pending();
    NothingJoined(s, Simplified(s, r, order));
  }

  lemma FreezeHosts(s: State, u: Reg, order: seq<Move>, follow: bool)
    ensures NoNewHosts(s, FrozenBy(Started(s, u), u, order, follow))
  {
    FreezesHosts(Started(s, u), u, order, follow);
    assert Started(s, u).Pending() == s.Pending();
    NothingJoined(s, FrozenBy(Started(s, u), u, order, follow));
  }

  /** The ends of a pending move are not new. */
  lemma EndsAreHosts(s: State, m: Move)
    requires m in s.Pending()
    ensures var (u, v) := Ends(s.rep, m);
      (u.Phys? ==> u in Hosts(s)) && (v.Phys? ==> v in Hosts(s))
  {
    assert m.dst in s.rep && s.rep[m.dst].Phys? ==> s.rep[m.dst] in Hosts(s);
    assert m.src in s.rep && s.rep[m.src].Phys? ==> s.rep[m.src] in Hosts(s);
    assert m.dst.Phys? ==> m.dst in NamedBy(s.Pending());
    assert m.src.Phys? ==> m.src in NamedBy(s.Pending());
  }

  lemma MergeHosts(s: State, u: Reg, v: Reg)
    requires u.Phys? ==> u in Hosts(s)
    ensures NoNewHosts(s, Merged(s, u, v))
  {
    var s' := Merged(s, u, v);
    assert s'.Pending() == s.Pending();
    forall x | x in s'.rep && s'.rep[x].Phys?
      ensures s'.rep[x] in Hosts(s)
    {
      if s'.rep[x] != u {
        assert x in s.rep && s.rep[x] == s'.rep[x];
      }
    }
  }

  lemma CombineHosts(s: State, u: Reg, v: Reg, order: seq<Reg>)
    ensures var s' := Released(Combined(s, u, v, order), u);
      s'.rep == Merged(s, u, v).rep && s'.Pending() == s.Pending()
  {
    CombinesHosts(Merged(s, u, v), u, order);
  }

  lemma DecideHosts(s: State, m: Move, u: Reg, v: Reg, order: seq<Reg>)
    ensures var s' := Decided(s, m, u, v, order);
      s'.Pending() <= s.Pending() + {m} && (s'.rep == s.rep || s'.rep == Merged(s, u, v).rep)
  {
    if u == v || v.Phys? || (u, v) in s.edges || !CanCombine(s, u, v) {
      KeptApartHosts(s, m, u, v, order);
    } else {
      CombineHosts(s, u, v, order);
    }
  }

  lemma KeptApartHosts(s: State, m: Move, u: Reg, v: Reg, order: seq<Reg>)
    requires u == v || v.Phys? || (u, v) in s.edges || !CanCombine(s, u, v)
    ensures var s' := Decided(s, m, u, v, order); s'.Pending() <= s.Pending() + {m} && s'.rep == s.rep
  {
  }

  lemma CoalesceHosts(s: State, m: Move, order: seq<Reg>)
    requires m in s.worklist
    ensures NoNewHosts(s, Coalesced(s, m, order))
  {
    var (u, v) := Ends(s.rep, m);
    EndsAreHosts(s, m);
    MergeHosts(s, u, v);
    DecideHosts(MoveTaken(s, m), m, u, v, order);
    var s' := Coalesced(s, m, order);
    assert s'.Pending() <= s.Pending();
    if s'.rep == s.rep {
      NothingJoined(s, s');
    } else {
      NothingJoined(Merged(s, u, v), s');
    }
  }

  // ----- the colours that are given -----

  /** A virtual register has a colour that may be handed out; unless it has been joined with a
      physical register, of which it then has the colour. */
  ghost predicate Handed(rep: map<Reg, Reg>, color: ColorMap) {
    forall r {:trigger color[r]} :: r in color ==>
      color[r] in AllocatableSet(r.ty) || (r in rep && rep[r].Phys? && color[r] == rep[r])
  }

  lemma HandedOneMore(rep: map<Reg, Reg>, color: ColorMap, r: Reg, c: Reg)
    requires Handed(rep, color) && c in AllocatableSet(r.ty)
    ensures Handed(rep, WithColor(color, r, c))
  {
  }

  lemma HandedOn(s: State, color: ColorMap, v: Reg)
    requires AliasOk(s.universe, s.coalesced, s.rep) && Handed(s.rep, color) && v in s.rep
    ensures Handed(s.rep, GivenColor(s.rep, color, v))
  {
    var r := s.rep[v];
    assert r !in s.rep && r.ty == v.ty;
  }

  /** Every spilled register finds all colours taken by its neighbours. */
  ghost predicate SpilledByRight(s: State, colored: RegSet, spilled: RegSet, color: ColorMap) {
    forall r, c {:trigger Avoids(Entry(s.graph, r), s.rep, colored, color, c)} ::
      r in spilled && c in AllocatableSet(r.ty) ==> !Avoids(Entry(s.graph, r), s.rep, colored, color, c)
  }

  /** One more register with a colour does not give the spilled ones any. */
  lemma ColoredTakesMore(s: State, colored: RegSet, spilled: RegSet, color: ColorMap, x: Reg, c: Reg)
    requires SpilledByRight(s, colored, spilled, color) && x !in colored
    ensures SpilledByRight(s, colored + {x}, spilled, WithColor(color, x, c))
  {
    var colored', color' := colored + {x}, WithColor(color, x, c);
    forall r, k {:trigger Avoids(Entry(s.graph, r), s.rep, colored', color', k)} |
      r in spilled && k in AllocatableSet(r.ty)
      ensures !Avoids(Entry(s.graph, r), s.rep, colored', color', k)
    {
      assert !Avoids(Entry(s.graph, r), s.rep, colored, color, k);
    }
  }

  lemma SpillsOneMore(s: State, colored: RegSet, spilled: RegSet, color: ColorMap, x: Reg)
    requires SpilledByRight(s, colored, spilled, color)
    requires forall c :: c in AllocatableSet(x.ty) ==> !Avoids(Entry(s.graph, x), s.rep, colored, color, c)
    ensures SpilledByRight(s, colored, spilled + {x}, color)
  {
  }

  lemma NotYetColored(s: State, n: nat, colored: RegSet, spilled: RegSet)
    requires OnceEach(s.stack) && n < |s.stack| && forall x :: x in colored + spilled <==> x in s.stack[n + 1..]
    ensures s.stack[n] !in colored
  {
    var r := s.stack[n];
    forall j | n < j < |s.stack|
      ensures s.stack[j] != r
    {
      assert s.stack[..j][n] == r;
    }
    assert r in colored ==> r in colored + spilled;
  }

  /** Giving coalesced registers their colours changes nothing about that. */
  lemma ExtendedSpills(s: State, colored: RegSet, spilled: RegSet, color: ColorMap, color': ColorMap)
    requires AliasOk(s.universe, s.coalesced, s.rep) && SpilledByRight(s, colored, spilled, color)
    requires Extended(s.rep, s.coalesced, color, color')
    ensures SpilledByRight(s, colored, spilled, color')
  {
    forall r, k {:trigger Avoids(Entry(s.graph, r), s.rep, colored, color', k)} |
      r in spilled && k in AllocatableSet(r.ty)
      ensures !Avoids(Entry(s.graph, r), s.rep, colored, color', k)
    {
      assert !Avoids(Entry(s.graph, r), s.rep, colored, color, k);
      forall w | w in Entry(s.graph, r)
        ensures Color(color', RepOf(s.rep, w)) == Color(color, RepOf(s.rep, w))
      {
        assert RepOf(s.rep, w) !in s.rep;
      }
    }
  }

  /** The colours of a round: a register with a role of its own is only given to a virtual
      register if a move of the code names it. */
  ghost predicate ReservedOnlyByMoves(color: ColorMap, moves: Moves) {
    forall r {:trigger color[r]} :: r in color ==>
      (color[r] in CalleeSaved() + CallerSaved() && color[r] !in RESERVED) || color[r] in NamedBy(moves)
  }

  lemma HandedIsByMoves(s: State, color: ColorMap, moves: Moves)
    requires Handed(s.rep, color) && Hosts(s) <= NamedBy(moves)
    requires forall r {:trigger color[r]} :: r in color ==> color[r].ty == r.ty
    ensures ReservedOnlyByMoves(color, moves)
  {
    forall r {:trigger color[r]} | r in color
      ensures (color[r] in CalleeSaved() + CallerSaved() && color[r] !in RESERVED) || color[r] in NamedBy(moves)
    {
      if color[r] in AllocatableSet(r.ty) {
        AllocatableAreSaved(color[r]);
      } else {
        assert s.rep[r] in Hosts(s);
      }
    }
  }
}
