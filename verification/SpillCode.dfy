// Rewriting a function so that spilled registers live in the frame: every use is loaded into a
// fresh register in front of the instruction, every definition stored from one behind it.

module SpillCode {
  import opened Machine
  import opened Coloring
  import opened SlotCode

  /** The uses of an instruction in order; a register that is named twice is listed twice. */
  function UseList(i: Instr): (us: seq<Reg>)
    requires WellFormed(i)
    ensures forall r :: r in us <==> r in Uses(i)
  {
    if i.tag == BL || i.tag == JR then i.passed else Tracked(i, Reads(i))
  }

  function Tracked(i: Instr, rs: seq<Reg>): (us: seq<Reg>)
    requires WellFormed(i)
    ensures forall r :: r in us <==> r in rs && r != ZERO && !(HasDst(i) && RegOp(r) == i.operands[0])
  {
    if rs == [] then []
    else if rs[0] == ZERO || (HasDst(i) && RegOp(rs[0]) == i.operands[0]) then Tracked(i, rs[1..])
    else [rs[0]] + Tracked(i, rs[1..])
  }

  function ReplaceUse(i: Instr, old_reg: Reg, new_reg: Reg): Instr {
    var begin := if HasDst(i) then 1 else 0;
    i.(operands := seq(|i.operands|, k requires 0 <= k < |i.operands| =>
      if k >= begin && i.operands[k] == RegOp(old_reg) then RegOp(new_reg) else i.operands[k]))
  }

  function ReplaceDef(i: Instr, old_reg: Reg, new_reg: Reg): Instr {
    if HasDst(i) && |i.operands| > 0 && i.operands[0] == RegOp(old_reg) then
      i.(operands := i.operands[0 := RegOp(new_reg)])
    else i
  }

  /** An instruction being rewritten: the code in front of it and behind it, and the number of
      the next fresh register. */
  datatype Rewriting = Rewriting(before: Block, instr: Instr, after: Block, next: nat)

  function UseTurn(sp: Spills, rw: Rewriting, r: Reg): Rewriting {
    if r !in sp.offset then rw
    else
      var t := Virt(r.ty, rw.next);
      Rewriting(rw.before + LoadSlot(sp, r, t, rw.next + 1), ReplaceUse(rw.instr, r, t), rw.after,
                AfterSlot(sp, r, rw.next + 1))
  }

  function DefTurn(sp: Spills, rw: Rewriting, r: Reg): Rewriting {
    if r !in sp.offset then rw
    else
      var t := Virt(r.ty, rw.next);
      Rewriting(rw.before, ReplaceDef(rw.instr, r, t), StoreSlot(sp, r, t, rw.next + 1) + rw.after,
                AfterSlot(sp, r, rw.next + 1))
  }

  function UseTurns(sp: Spills, rw: Rewriting, us: seq<Reg>): Rewriting {
    if us == [] then rw else UseTurn(sp, UseTurns(sp, rw, us[..|us| - 1]), us[|us| - 1])
  }

  function DefTurns(sp: Spills, rw: Rewriting, ds: seq<Reg>): Rewriting {
    if ds == [] then rw else DefTurn(sp, DefTurns(sp, rw, ds[..|ds| - 1]), ds[|ds| - 1])
  }

  function Rewritten(sp: Spills, i: Instr, n: nat): Rewriting
    requires WellFormed(i)
  {
    DefTurns(sp, UseTurns(sp, Rewriting([], i, [], n), UseList(i)), Defs(i))
  }

  function SpillInstr(sp: Spills, i: Instr, n: nat): Block
    requires WellFormed(i)
  {
    var rw := Rewritten(sp, i, n);
    rw.before + [rw.instr] + rw.after
  }

  // ----- replacing registers one by one -----

  /** The operands behind the destination renamed, all at once. */
  function RenameUses(i: Instr, c: ColorMap): Instr {
    var begin := if HasDst(i) then 1 else 0;
    i.(operands := seq(|i.operands|, k requires 0 <= k < |i.operands| =>
      if k >= begin then ColorOperand(c, i.operands[k]) else i.operands[k]))
  }

  /** The registers an instruction names are numbered below n. */
  predicate Named(i: Instr, n: nat) {
    forall o :: o in i.operands && o.RegOp? ==> Below(o.reg, n)
  }

  /** A renaming of spilled registers to fresh ones. */
  ghost predicate Fresh(c: ColorMap, n: nat, next: nat) {
    forall r {:trigger c[r]} :: r in c ==> r.Virt? && r.id < n && c[r].Virt? && c[r].ty == r.ty && n <= c[r].id < next
  }

  function Added(c: ColorMap, r: Reg, t: Reg): ColorMap {
    if r in c then c else c[r := t]
  }

  lemma ReplacedOperand(c: ColorMap, n: nat, next: nat, o: Operand, r: Reg, t: Reg)
    requires Fresh(c, n, next) && r.Virt? && r.id < n && (o.RegOp? ==> Below(o.reg, n))
    ensures (if ColorOperand(c, o) == RegOp(r) then RegOp(t) else ColorOperand(c, o)) == ColorOperand(Added(c, r, t), o)
  {
  }

  lemma ReplacedUse(i: Instr, c: ColorMap, n: nat, next: nat, r: Reg, t: Reg)
    requires Fresh(c, n, next) && r.Virt? && r.id < n && Named(i, n)
    ensures ReplaceUse(RenameUses(i, c), r, t) == RenameUses(i, Added(c, r, t))
  {
    var a, b := ReplaceUse(RenameUses(i, c), r, t), RenameUses(i, Added(c, r, t));
    forall k | 0 <= k < |i.operands|
      ensures a.operands[k] == b.operands[k]
    {
      assert i.operands[k] in i.operands;
      ReplacedOperand(c, n, next, i.operands[k], r, t);
    }
  }

  /** The destination too. */
  function WithDef(i: Instr, c: ColorMap, sp: Spills, t: Reg): ColorMap
    requires WellFormed(i)
  {
    if HasDst(i) && i.operands[0].reg in sp.offset then c[i.operands[0].reg := t] else c
  }

  ghost predicate KeysAre(c: ColorMap, us: seq<Reg>, sp: Spills) {
    forall r :: r in c <==> r in us && r in sp.offset
  }

  lemma DestinationIsNotRead(i: Instr, k: nat)
    requires WellFormed(i) && DistinctOperands(i) && HasDst(i) && 0 < k < |i.operands|
    requires i.operands[k] == i.operands[0]
    ensures i.operands[0].reg == SP || i.operands[0].reg == ZERO
  {
    assert i.operands[1..][k - 1] == i.operands[k];
    assert i.operands[0].reg in Reads(i);
  }

  lemma RenamedWithDef(i: Instr, c: ColorMap, d: Reg, t: Reg)
    requires WellFormed(i) && DistinctOperands(i) && HasDst(i) && i.operands[0] == RegOp(d) && d.Virt?
    ensures ReplaceDef(RenameUses(i, c), d, t) == Colorize(c[d := t], i)
  {
    var a, b := ReplaceDef(RenameUses(i, c), d, t), Colorize(c[d := t], i);
    assert RenameUses(i, c).operands[0] == i.operands[0];
    forall k | 0 <= k < |i.operands|
      ensures a.operands[k] == b.operands[k]
    {
      if k > 0 && i.operands[k] == i.operands[0] {
        DestinationIsNotRead(i, k);
      }
    }
    assert a.operands == b.operands;
  }

  lemma RenamedUsesOnly(i: Instr, c: ColorMap)
    requires WellFormed(i) && (HasDst(i) ==> i.operands[0].reg !in c)
    ensures RenameUses(i, c) == Colorize(c, i)
  {
    var a, b := RenameUses(i, c), Colorize(c, i);
    assert a.operands == b.operands;
  }

  /** All replacements together are one renaming of the whole instruction. */
  lemma RenamedTwice(i: Instr, c: ColorMap, sp: Spills, t: Reg)
    requires WellFormed(i) && DistinctOperands(i) && SpillsOk(sp) && KeysAre(c, UseList(i), sp)
    ensures
      var j := RenameUses(i, c);
      (if HasDst(i) && i.operands[0].reg in sp.offset then ReplaceDef(j, i.operands[0].reg, t) else j)
        == Colorize(WithDef(i, c, sp, t), i)
  {
    if HasDst(i) && i.operands[0].reg in sp.offset {
      RenamedWithDef(i, c, i.operands[0].reg, t);
    } else {
      RenamedUsesOnly(i, c);
    }
  }

  // ----- loading the uses -----

  /** The fresh registers hold what the spilled ones hold in the original run. */
  ghost predicate HoldValues(c: ColorMap, rs: Regs, rs2: Regs) {
    forall x {:trigger c[x]} :: x in c ==> Read(rs2, c[x]) == Read(rs, x)
  }

  /** The slot of r holds what r holds in the original run, and its base register is in place. */
  ghost predicate InSlot(sp: Spills, frame: int, rs: Regs, rs': Regs, w': World, r: Reg) {
    r in sp.offset ==> AtHand(sp, frame, r, rs') && Mem(w', frame + sp.offset[r]) == Read(rs, r)
  }

  /** Where the rewriting stands after some uses, and the state the loads so far lead to. */
  ghost predicate Loaded(isa: Isa, sp: Spills, i: Instr, rw: Rewriting, n: nat, rs: Regs, rs': Regs, w': World,
                         us: seq<Reg>, c: ColorMap, rs2: Regs) {
    && RunsTo(isa, rw.before, rs', w', rs2, w')
    && n <= rw.next && rw.after == [] && rw.instr == RenameUses(i, c)
    && Fresh(c, n, rw.next) && KeysAre(c, us, sp) && HoldValues(c, rs, rs2)
    && Keeps(rs', rs2, n, ZERO)
  }

  lemma HoldOneMore(c: ColorMap, n: nat, next: nat, rs: Regs, rs2: Regs, rs3: Regs, r: Reg, t: Reg)
    requires Fresh(c, n, next) && HoldValues(c, rs, rs2) && Keeps(rs2, rs3, next + 1, t)
    requires t.Virt? && t.id == next && Read(rs3, t) == Read(rs, r)
    ensures HoldValues(Added(c, r, t), rs, rs3)
  {
    forall x | x in c
      ensures Read(rs3, c[x]) == Read(rs, x)
    {
      assert Read(rs2, c[x]) == Read(rs, x);
      assert Below(c[x], next + 1) && c[x] != t;
    }
  }

  lemma KeepsLoading(n: nat, next: nat, rs': Regs, rs2: Regs, rs3: Regs, t: Reg)
    requires n <= next && Keeps(rs', rs2, n, ZERO) && Keeps(rs2, rs3, next + 1, t) && t.Virt? && t.id == next
    ensures Keeps(rs', rs3, n, ZERO)
  {
    forall x | Below(x, n) && x != ZERO
      ensures Read(rs3, x) == Read(rs', x)
    {
      assert Read(rs2, x) == Read(rs', x);
      assert Below(x, next + 1) && x != t;
    }
  }

  lemma FreshOneMore(c: ColorMap, n: nat, next: nat, next': nat, r: Reg, t: Reg)
    requires Fresh(c, n, next) && r.Virt? && r.id < n <= next < next'
    requires t.Virt? && t.ty == r.ty && t.id == next
    ensures Fresh(Added(c, r, t), n, next')
  {
  }

  lemma KeysOneMore(c: ColorMap, us: seq<Reg>, sp: Spills, r: Reg, t: Reg)
    requires KeysAre(c, us, sp) && r in sp.offset
    ensures KeysAre(Added(c, r, t), us + [r], sp)
  {
  }

  lemma UseTurnIs(sp: Spills, rw: Rewriting, r: Reg, t: Reg)
    requires r in sp.offset && t == Virt(r.ty, rw.next)
    ensures UseTurn(sp, rw, r) ==
      Rewriting(rw.before + LoadSlot(sp, r, t, rw.next + 1), ReplaceUse(rw.instr, r, t), rw.after,
                AfterSlot(sp, r, rw.next + 1))
    ensures AfterSlot(sp, r, rw.next + 1) > rw.next
  {
  }

  lemma SlotLoaded(isa: Isa, sp: Spills, rw: Rewriting, rs': Regs, w': World, rs2: Regs, r: Reg, t: Reg,
                   frame: int, v: Value) returns (rs3: Regs)
    requires Lawful(isa) && r in sp.offset && Int32(sp.offset[r]) && t == Virt(r.ty, rw.next)
    requires RunsTo(isa, rw.before, rs', w', rs2, w')
    requires AtHand(sp, frame, r, rs2) && v == Mem(w', frame + sp.offset[r])
    ensures RunsTo(isa, UseTurn(sp, rw, r).before, rs', w', rs3, w')
    ensures Read(rs3, t) == v && Keeps(rs2, rs3, rw.next + 1, t)
  {
    rs3 := LoadSlotRuns(isa, sp, frame, r, t, rw.next + 1, rs2, w', v);
    RunsBoth(isa, rw.before, LoadSlot(sp, r, t, rw.next + 1), rs', w', rs2, w', rs3, w');
    UseTurnIs(sp, rw, r, t);
  }

  /** What has been loaded so far is still in place, and so is the new value. */
  lemma OneMoreLoaded(isa: Isa, sp: Spills, i: Instr, rw: Rewriting, n: nat, rs: Regs, rs': Regs, w': World,
                      us: seq<Reg>, c: ColorMap, rs2: Regs, r: Reg, t: Reg, rs3: Regs)
    requires Named(i, n) && r in sp.offset && r.Virt? && r.id < n && t == Virt(r.ty, rw.next)
    requires Loaded(isa, sp, i, rw, n, rs, rs', w', us, c, rs2)
    requires RunsTo(isa, UseTurn(sp, rw, r).before, rs', w', rs3, w')
    requires Read(rs3, t) == Read(rs, r) && Keeps(rs2, rs3, rw.next + 1, t)
    ensures Loaded(isa, sp, i, UseTurn(sp, rw, r), n, rs, rs', w', us + [r], Added(c, r, t), rs3)
  {
    UseTurnIs(sp, rw, r, t);
    HoldOneMore(c, n, rw.next, rs, rs2, rs3, r, t);
    KeepsLoading(n, rw.next, rs', rs2, rs3, t);
    FreshOneMore(c, n, rw.next, AfterSlot(sp, r, rw.next + 1), r, t);
    KeysOneMore(c, us, sp, r, t);
    ReplacedUse(i, c, n, rw.next, r, t);
  }

  lemma UseLoaded(isa: Isa, sp: Spills, i: Instr, rw: Rewriting, n: nat, rs: Regs, rs': Regs, w': World,
                  us: seq<Reg>, c: ColorMap, rs2: Regs, r: Reg, frame: int) returns (rs3: Regs)
    requires Lawful(isa) && SpillsOk(sp) && Named(i, n) && r in sp.offset && r.id < n
    requires Loaded(isa, sp, i, rw, n, rs, rs', w', us, c, rs2) && InSlot(sp, frame, rs, rs', w', r)
    ensures Loaded(isa, sp, i, UseTurn(sp, rw, r), n, rs, rs', w', us + [r], Added(c, r, Virt(r.ty, rw.next)), rs3)
  {
    assert Read(rs2, SP) == Read(rs', SP) && Read(rs2, FP) == Read(rs', FP);
    rs3 := SlotLoaded(isa, sp, rw, rs', w', rs2, r, Virt(r.ty, rw.next), frame, Read(rs, r));
    OneMoreLoaded(isa, sp, i, rw, n, rs, rs', w', us, c, rs2, r, Virt(r.ty, rw.next), rs3);
  }

  /** All the slots an instruction reads from are as they should be. */
  ghost predicate AllInSlot(sp: Spills, frame: int, n: nat, rs: Regs, rs': Regs, w': World, us: seq<Reg>) {
    forall r :: r in us ==> InSlot(sp, frame, rs, rs', w', r) && (r in sp.offset ==> r.id < n)
  }

  lemma NothingLoaded(isa: Isa, sp: Spills, i: Instr, n: nat, rs: Regs, rs': Regs, w': World)
    ensures Loaded(isa, sp, i, Rewriting([], i, [], n), n, rs, rs', w', [], map[], rs')
  {
    assert RenameUses(i, map[]).operands == i.operands;
  }

  lemma {:induction false} UsesLoaded(isa: Isa, sp: Spills, i: Instr, n: nat, rs: Regs, rs': Regs, w': World,
                                      us: seq<Reg>, frame: int) returns (c: ColorMap, rs2: Regs)
    requires Lawful(isa) && SpillsOk(sp) && Named(i, n)
    requires AllInSlot(sp, frame, n, rs, rs', w', us)
    ensures Loaded(isa, sp, i, UseTurns(sp, Rewriting([], i, [], n), us), n, rs, rs', w', us, c, rs2)
    decreases |us|
  {
    if us == [] {
      NothingLoaded(isa, sp, i, n, rs, rs', w');
      c, rs2 := map[], rs';
    } else {
      var init, r := us[..|us| - 1], us[|us| - 1];
      c, rs2 := UsesLoaded(isa, sp, i, n, rs, rs', w', init, frame);
      assert us == init + [r];
      var rw := UseTurns(sp, Rewriting([], i, [], n), init);
      if r in sp.offset {
        rs2 := UseLoaded(isa, sp, i, rw, n, rs, rs', w', init, c, rs2, r, frame);
        c := Added(c, r, Virt(r.ty, rw.next));
      }
    }
  }

  // ----- the instruction itself -----

  /** The registers that stay registers have the same values. */
  ghost predicate RegsAgree(sp: Spills, n: nat, rs: Regs, rs': Regs) {
    forall r {:trigger Read(rs', r)} :: Below(r, n) && r !in sp.offset ==> Read(rs', r) == Read(rs, r)
  }

  lemma ReadIsNamed(i: Instr, n: nat, r: Reg)
    requires WellFormed(i) && Named(i, n) && r in Reads(i)
    ensures Below(r, n)
  {
    if i.tag != BL && i.tag != JR {
      assert RegOp(r) in i.operands;
    }
  }

  lemma ReadLoaded(sp: Spills, i: Instr, n: nat, c: ColorMap, t: Reg, rs: Regs, rs2: Regs, r: Reg)
    requires WellFormed(i) && DistinctOperands(i) && SpillsOk(sp) && Named(i, n) && r in Reads(i)
    requires KeysAre(c, UseList(i), sp) && HoldValues(c, rs, rs2) && RegsAgree(sp, n, rs, rs2)
    ensures Read(rs2, Color(WithDef(i, c, sp, t), r)) == Read(rs, r)
  {
    UsesCoverReads(i);
    ReadIsNamed(i, n, r);
    if r in sp.offset {
      assert r in c;
      assert Color(WithDef(i, c, sp, t), r) == c[r];
    } else {
      assert Color(WithDef(i, c, sp, t), r) == r;
    }
  }

  lemma ReadsLoaded(sp: Spills, i: Instr, n: nat, c: ColorMap, t: Reg, rs: Regs, rs2: Regs)
    requires WellFormed(i) && DistinctOperands(i) && SpillsOk(sp) && Named(i, n)
    requires KeysAre(c, UseList(i), sp) && HoldValues(c, rs, rs2) && RegsAgree(sp, n, rs, rs2)
    ensures ReadAll(rs2, ColorSeq(WithDef(i, c, sp, t), Reads(i))) == ReadAll(rs, Reads(i))
  {
    forall k | 0 <= k < |Reads(i)|
      ensures Read(rs2, Color(WithDef(i, c, sp, t), Reads(i)[k])) == Read(rs, Reads(i)[k])
    {
      ReadLoaded(sp, i, n, c, t, rs, rs2, Reads(i)[k]);
    }
  }

  /** Whether an instruction may access a memory cell, given what it reads and the stack pointer. */
  type Touches = (Shape, seq<Value>, Value, int) -> bool

  ghost predicate SameOutside(w: World, w': World, slots: set<int>) {
    w'.io == w.io && forall a {:trigger Mem(w', a)} :: a !in slots ==> Mem(w', a) == Mem(w, a)
  }

  /** An instruction that does not touch the slots does the same whatever they hold, and leaves them alone. */
  ghost predicate LocalAt(isa: Isa, touches: Touches, sh: Shape, vals: seq<Value>, s: Value, w: World, w': World,
                          slots: set<int>) {
    SameOutside(w, w', slots) && (forall a :: a in slots ==> !touches(sh, vals, s, a)) ==>
      var e, e' := isa(sh, vals, s, w), isa(sh, vals, s, w');
      && e'.vals == e.vals && e'.taken == e.taken
      && SameOutside(e.world, e'.world, slots)
      && forall a {:trigger Mem(e'.world, a)} :: a in slots ==> Mem(e'.world, a) == Mem(w', a)
  }

  ghost predicate Local(isa: Isa, touches: Touches) {
    forall sh, vals, s, w, w', slots {:trigger LocalAt(isa, touches, sh, vals, s, w, w', slots)} ::
      LocalAt(isa, touches, sh, vals, s, w, w', slots)
  }

  function SlotCells(sp: Spills, frame: int): set<int> {
    set r | r in sp.offset :: frame + sp.offset[r]
  }

  /** What an instruction, run from the values it reads in rs, computes. */
  function EffectOf(isa: Isa, i: Instr, rs: Regs, w: World): Effect
    requires WellFormed(i)
  {
    isa(ShapeOf(i), ReadAll(rs, Reads(i)), Read(rs, SP), w)
  }

  /** The instruction leaves the slots alone. */
  ghost predicate Clear(touches: Touches, slots: set<int>, i: Instr, rs: Regs)
    requires WellFormed(i)
  {
    i.tag != MOV && i.tag != JR ==> forall a :: a in slots ==>
      !touches(ShapeOf(i), ReadAll(rs, Reads(i)), Read(rs, SP), a)
  }

  /** j does on its registers what i does: same operation, same values read, same branch target. */
  ghost predicate Matches(i: Instr, j: Instr, s: ColorMap, rs: Regs, rs2: Regs) {
    && WellFormed(i) && WellFormed(j) && ShapeOf(j) == ShapeOf(i)
    && ReadAll(rs2, Reads(j)) == ReadAll(rs, Reads(i)) && Defs(j) == ColorSeq(s, Defs(i))
    && HasTarget(j) == HasTarget(i) && (HasTarget(i) ==> Target(j) == Target(i))
    && j == Colorize(s, i) && Read(rs2, SP) == Read(rs, SP)
  }

  lemma RenamedMatches(sp: Spills, i: Instr, n: nat, c: ColorMap, t: Reg, rs: Regs, rs2: Regs, j: Instr)
    requires WellFormed(i) && DistinctOperands(i) && SpillsOk(sp) && Named(i, n)
    requires KeysAre(c, UseList(i), sp) && HoldValues(c, rs, rs2) && RegsAgree(sp, n, rs, rs2)
    requires KeepsRoles(WithDef(i, c, sp, t)) && j == Colorize(WithDef(i, c, sp, t), i)
    ensures Matches(i, j, WithDef(i, c, sp, t), rs, rs2)
  {
    ColorizeInstr(WithDef(i, c, sp, t), i);
    ReadsLoaded(sp, i, n, c, t, rs, rs2);
    assert Read(rs2, SP) == Read(rs, SP);
  }

  lemma EffectSame(isa: Isa, touches: Touches, slots: set<int>, i: Instr, j: Instr, s: ColorMap, rs: Regs, rs2: Regs,
                   w: World, w': World)
    requires Local(isa, touches) && SameOutside(w, w', slots) && i.tag != MOV && i.tag != JR
    requires Matches(i, j, s, rs, rs2) && Clear(touches, slots, i, rs)
    ensures var e, e' := EffectOf(isa, i, rs, w), EffectOf(isa, j, rs2, w');
      && e'.vals == e.vals && e'.taken == e.taken && SameOutside(e.world, e'.world, slots)
      && forall a {:trigger Mem(e'.world, a)} :: a in slots ==> Mem(e'.world, a) == Mem(w', a)
  {
    assert LocalAt(isa, touches, ShapeOf(i), ReadAll(rs, Reads(i)), Read(rs, SP), w, w', slots);
  }

  /** The value an instruction with a destination computes. */
  function ValueOf(isa: Isa, i: Instr, rs: Regs, w: World): Value
    requires WellFormed(i) && HasDst(i)
  {
    if i.tag == MOV then Read(rs, i.operands[1].reg)
    else
      var vals := EffectOf(isa, i, rs, w).vals;
      if vals == [] then 0 else vals[0]
  }

  lemma ExecDst(isa: Isa, i: Instr, rs: Regs, w: World)
    requires WellFormed(i) && HasDst(i)
    ensures Exec(isa, i, rs, w) == Fall(Write(rs, i.operands[0].reg, ValueOf(isa, i, rs, w)), w)
  {
    var d := i.operands[0].reg;
    if i.tag != MOV {
      var vals := EffectOf(isa, i, rs, w).vals;
      if d == ZERO {
        assert Defs(i) == [];
      } else {
        assert Defs(i) == [d];
        WriteOne(rs, d, vals);
      }
    }
  }

  lemma MoveReads(i: Instr)
    requires WellFormed(i) && i.tag == MOV
    ensures Reads(i) == [i.operands[1].reg]
  {
    var s := i.operands[1].reg;
    assert i.operands[1..] == [RegOp(s)] + [];
    RegsOfOne(s, []);
  }

  lemma ValueSame(isa: Isa, touches: Touches, slots: set<int>, i: Instr, j: Instr, s: ColorMap, rs: Regs, rs2: Regs,
                  w: World, w': World)
    requires Local(isa, touches) && SameOutside(w, w', slots) && HasDst(i)
    requires Matches(i, j, s, rs, rs2) && Clear(touches, slots, i, rs)
    ensures HasDst(j) && ValueOf(isa, j, rs2, w') == ValueOf(isa, i, rs, w)
  {
    assert j.tag == i.tag;
    if i.tag == MOV {
      MoveReads(i);
      MoveReads(j);
      assert ReadAll(rs2, Reads(j))[0] == Read(rs2, j.operands[1].reg);
      assert ReadAll(rs, Reads(i))[0] == Read(rs, i.operands[1].reg);
    } else {
      EffectSame(isa, touches, slots, i, j, s, rs, rs2, w, w');
    }
  }

  lemma {:induction false} WriteAllSame(a: Regs, b: Regs, ds: seq<Reg>, vals: seq<Value>, x: Reg)
    requires Read(a, x) == Read(b, x)
    ensures Read(WriteAll(a, ds, vals), x) == Read(WriteAll(b, ds, vals), x)
    decreases |ds|
  {
    if ds != [] {
      var v := if vals == [] then 0 else vals[0];
      WriteAllSame(Write(a, ds[0], v), Write(b, ds[0], v), ds[1..], if vals == [] then [] else vals[1..], x);
    }
  }

  // ----- from one instruction to its replacement -----

  ghost predicate SlotsHold(sp: Spills, frame: int, rs: Regs, w': World) {
    forall r {:trigger sp.offset[r]} :: r in sp.offset ==> Mem(w', frame + sp.offset[r]) == Read(rs, r)
  }

  /** The original state and the state of the rewritten code: the registers that stay agree,
      every spilled register is in its slot, and the rest of the memory is the same. */
  ghost predicate SpillAgree(sp: Spills, frame: int, n: nat, rs: Regs, w: World, rs': Regs, w': World) {
    RegsAgree(sp, n, rs, rs') && SlotsHold(sp, frame, rs, w') && SameOutside(w, w', SlotCells(sp, frame))
  }

  ghost predicate SpillOutcome(sp: Spills, frame: int, n: nat, r: Result, r': Result) {
    match r
    case Fall(rs, w) => r'.Fall? && SpillAgree(sp, frame, n, rs, w, r'.rs, r'.world)
    case Goto(l, rs, w) => r'.Goto? && r'.target == l && SpillAgree(sp, frame, n, rs, w, r'.rs, r'.world)
    case Return(vals, w) => r'.Return? && r'.vals == vals && SameOutside(w, r'.world, SlotCells(sp, frame))
  }

  lemma AgreeAfterLoads(sp: Spills, n: nat, m: nat, rs: Regs, rs': Regs, rs2: Regs)
    requires RegsAgree(sp, n, rs, rs') && Keeps(rs', rs2, m, ZERO) && n <= m
    ensures RegsAgree(sp, n, rs, rs2)
  {
    forall r {:trigger Read(rs2, r)} | Below(r, n) && r !in sp.offset
      ensures Read(rs2, r) == Read(rs, r)
    {
      assert Read(rs', r) == Read(rs, r);
      assert r != ZERO ==> Below(r, m) && Read(rs2, r) == Read(rs', r);
    }
  }

  lemma WriteAgrees(sp: Spills, frame: int, n: nat, d: Reg, v: Value, rs: Regs, w: World, rs2: Regs, w': World)
    requires SpillAgree(sp, frame, n, rs, w, rs2, w') && d !in sp.offset
    ensures SpillAgree(sp, frame, n, Write(rs, d, v), w, Write(rs2, d, v), w')
  {
    forall r {:trigger Read(Write(rs2, d, v), r)} | Below(r, n) && r !in sp.offset
      ensures Read(Write(rs2, d, v), r) == Read(Write(rs, d, v), r)
    {
      assert Read(rs2, r) == Read(rs, r);
    }
    forall r {:trigger sp.offset[r]} | r in sp.offset
      ensures Mem(w', frame + sp.offset[r]) == Read(Write(rs, d, v), r)
    {
      assert Read(Write(rs, d, v), r) == Read(rs, r);
    }
  }

  lemma SlotsAfterStore(sp: Spills, frame: int, d: Reg, a: int, v: Value, rs: Regs, w': World)
    requires SpillsOk(sp) && d in sp.offset && a == frame + sp.offset[d] && SlotsHold(sp, frame, rs, w')
    ensures SlotsHold(sp, frame, Write(rs, d, v), World(w'.mem[a := v], w'.io))
  {
    var w2 := World(w'.mem[a := v], w'.io);
    forall r {:trigger sp.offset[r]} | r in sp.offset
      ensures Mem(w2, frame + sp.offset[r]) == Read(Write(rs, d, v), r)
    {
      assert r != d ==> sp.offset[r] != sp.offset[d];
      assert Mem(w', frame + sp.offset[r]) == Read(rs, r);
    }
  }

  lemma RegsAfterStore(sp: Spills, n: nat, k: nat, d: Reg, t: Reg, v: Value, rs: Regs, rs2: Regs, rs3: Regs)
    requires RegsAgree(sp, n, rs, rs2) && d in sp.offset && t.Virt? && n <= t.id < k
    requires Keeps(Write(rs2, t, v), rs3, k, Virt(General, k))
    ensures RegsAgree(sp, n, Write(rs, d, v), rs3)
  {
    forall r {:trigger Read(rs3, r)} | Below(r, n) && r !in sp.offset
      ensures Read(rs3, r) == Read(Write(rs, d, v), r)
    {
      assert r != t && r != d && Below(r, k);
      assert Read(rs3, r) == Read(Write(rs2, t, v), r);
      assert Read(rs2, r) == Read(rs, r);
    }
  }

  lemma OutsideAfterStore(sp: Spills, frame: int, d: Reg, a: int, v: Value, w: World, w': World)
    requires SameOutside(w, w', SlotCells(sp, frame)) && d in sp.offset && a == frame + sp.offset[d]
    ensures SameOutside(w, World(w'.mem[a := v], w'.io), SlotCells(sp, frame))
  {
    assert a in SlotCells(sp, frame);
    forall b | b !in SlotCells(sp, frame)
      ensures Mem(World(w'.mem[a := v], w'.io), b) == Mem(w, b)
    {
      assert Mem(w', b) == Mem(w, b);
    }
  }

  lemma BaseStays(sp: Spills, frame: int, n: nat, d: Reg, t: Reg, v: Value, rs: Regs, rs2: Regs)
    requires SpillsOk(sp) && RegsAgree(sp, n, rs, rs2) && d in sp.offset && t.Virt?
    ensures AtHand(sp, frame, d, Write(rs, d, v)) ==> AtHand(sp, frame, d, Write(rs2, t, v))
  {
    assert Read(rs2, SP) == Read(rs, SP) && Read(rs2, FP) == Read(rs, FP);
  }

  /** The definition of a spilled register, followed by the store to its slot. */
  lemma StoredAgrees(isa: Isa, sp: Spills, frame: int, n: nat, d: Reg, t: Reg, v: Value, k: nat,
                     rs: Regs, w: World, rs2: Regs, w': World, a: int) returns (rs3: Regs)
    requires Lawful(isa) && SpillsOk(sp) && d in sp.offset && t.Virt? && n <= t.id < k
    requires SpillAgree(sp, frame, n, rs, w, rs2, w') && AtHand(sp, frame, d, Write(rs, d, v))
    requires a == frame + sp.offset[d]
    ensures RunsTo(isa, StoreSlot(sp, d, t, k), Write(rs2, t, v), w', rs3, World(w'.mem[a := v], w'.io))
    ensures SpillAgree(sp, frame, n, Write(rs, d, v), w, rs3, World(w'.mem[a := v], w'.io))
  {
    BaseStays(sp, frame, n, d, t, v, rs, rs2);
    rs3 := StoreSlotRuns(isa, sp, frame, d, t, k, Write(rs2, t, v), w', a, v);
    SlotsAfterStore(sp, frame, d, a, v, rs, w');
    RegsAfterStore(sp, n, k, d, t, v, rs, rs2, rs3);
    OutsideAfterStore(sp, frame, d, a, v, w, w');
  }

  lemma CallKeepsRegs(sp: Spills, n: nat, ds: seq<Reg>, vals: seq<Value>, rs: Regs, rs2: Regs)
    requires RegsAgree(sp, n, rs, rs2)
    ensures RegsAgree(sp, n, WriteAll(rs, ds, vals), WriteAll(rs2, ds, vals))
  {
    forall r {:trigger Read(WriteAll(rs2, ds, vals), r)} | Below(r, n) && r !in sp.offset
      ensures Read(WriteAll(rs2, ds, vals), r) == Read(WriteAll(rs, ds, vals), r)
    {
      assert Read(rs2, r) == Read(rs, r);
      WriteAllSame(rs2, rs, ds, vals, r);
    }
  }

  lemma CallKeepsSlots(sp: Spills, frame: int, ds: seq<Reg>, vals: seq<Value>, rs: Regs, w': World)
    requires SlotsHold(sp, frame, rs, w') && forall d :: d in ds ==> d !in sp.offset
    ensures SlotsHold(sp, frame, WriteAll(rs, ds, vals), w')
  {
    forall r {:trigger sp.offset[r]} | r in sp.offset
      ensures Mem(w', frame + sp.offset[r]) == Read(WriteAll(rs, ds, vals), r)
    {
      assert Mem(w', frame + sp.offset[r]) == Read(rs, r);
      WriteAllElse(rs, ds, vals, r);
    }
  }

  lemma CallAgrees(sp: Spills, frame: int, n: nat, ds: seq<Reg>, vals: seq<Value>, rs: Regs, w: World, rs2: Regs,
                   w': World)
    requires SpillAgree(sp, frame, n, rs, w, rs2, w') && forall d :: d in ds ==> d !in sp.offset
    ensures SpillAgree(sp, frame, n, WriteAll(rs, ds, vals), w, WriteAll(rs2, ds, vals), w')
  {
    CallKeepsRegs(sp, n, ds, vals, rs, rs2);
    CallKeepsSlots(sp, frame, ds, vals, rs, w');
  }

  lemma WorldAgrees(sp: Spills, frame: int, n: nat, rs: Regs, w: World, rs2: Regs, w': World, w1: World, w1': World)
    requires SpillAgree(sp, frame, n, rs, w, rs2, w') && SameOutside(w1, w1', SlotCells(sp, frame))
    requires forall a {:trigger Mem(w1', a)} :: a in SlotCells(sp, frame) ==> Mem(w1', a) == Mem(w', a)
    ensures SpillAgree(sp, frame, n, rs, w1, rs2, w1')
  {
    forall r {:trigger sp.offset[r]} | r in sp.offset
      ensures Mem(w1', frame + sp.offset[r]) == Read(rs, r)
    {
      assert frame + sp.offset[r] in SlotCells(sp, frame);
      assert Mem(w', frame + sp.offset[r]) == Read(rs, r);
    }
  }

  /** While an instruction runs that names a spilled register, the register through which the
      slot is reached holds the frame's address: before it for a use, behind it for a definition. */
  ghost predicate Steady(sp: Spills, frame: int, i: Instr, rs: Regs, r: Result)
    requires WellFormed(i)
  {
    && (forall u :: u in UseList(i) && u in sp.offset ==> AtHand(sp, frame, u, rs))
    && (HasDst(i) && i.operands[0].reg in sp.offset && r.Fall? ==> AtHand(sp, frame, i.operands[0].reg, r.rs))
  }

  ghost predicate SpillsBelow(sp: Spills, n: nat) {
    forall r :: r in sp.offset ==> r.Virt? && r.id < n
  }

  /** An instruction whose registers are numbered below n, and that no operand of is also the destination. */
  ghost predicate Spillable(i: Instr, n: nat) {
    WellFormed(i) && DistinctOperands(i) && Named(i, n)
  }

  lemma NothingDefined(sp: Spills, rw: Rewriting, ds: seq<Reg>)
    requires forall d :: d in ds ==> d !in sp.offset
    ensures DefTurns(sp, rw, ds) == rw
  {
    if ds != [] {
      NothingDefined(sp, rw, ds[..|ds| - 1]);
      assert ds[|ds| - 1] in ds;
    }
  }

  lemma OneDefined(sp: Spills, rw: Rewriting, d: Reg, t: Reg)
    requires d in sp.offset && t == Virt(d.ty, rw.next) && rw.after == []
    ensures var r := DefTurns(sp, rw, [d]);
      r.before == rw.before && r.instr == ReplaceDef(rw.instr, d, t) && r.after == StoreSlot(sp, d, t, rw.next + 1)
  {
    assert [d][..0] == [];
    assert StoreSlot(sp, d, t, rw.next + 1) + [] == StoreSlot(sp, d, t, rw.next + 1);
  }

  lemma SlotReady(sp: Spills, frame: int, n: nat, u: Reg, rs: Regs, rs': Regs, w': World)
    requires SpillsOk(sp) && RegsAgree(sp, n, rs, rs') && SlotsHold(sp, frame, rs, w')
    requires u in sp.offset && AtHand(sp, frame, u, rs)
    ensures InSlot(sp, frame, rs, rs', w', u)
  {
    assert Read(rs', SP) == Read(rs, SP) && Read(rs', FP) == Read(rs, FP);
  }

  lemma SlotsReady(sp: Spills, frame: int, n: nat, m: nat, us: seq<Reg>, rs: Regs, rs': Regs, w': World)
    requires SpillsOk(sp) && SpillsBelow(sp, n) && n <= m
    requires RegsAgree(sp, n, rs, rs') && SlotsHold(sp, frame, rs, w')
    requires forall u :: u in us && u in sp.offset ==> AtHand(sp, frame, u, rs)
    ensures AllInSlot(sp, frame, m, rs, rs', w', us)
  {
    forall u | u in us
      ensures InSlot(sp, frame, rs, rs', w', u) && (u in sp.offset ==> u.id < m)
    {
      if u in sp.offset {
        SlotReady(sp, frame, n, u, rs, rs', w');
      }
    }
  }

  /** The state in front of the renamed instruction. */
  ghost predicate ReadyFor(isa: Isa, sp: Spills, frame: int, n: nat, i: Instr, rw: Rewriting, c: ColorMap,
                           rs: Regs, w: World, rs': Regs, w': World, rs2: Regs) {
    && RunsTo(isa, rw.before, rs', w', rs2, w') && rw.after == [] && rw.instr == RenameUses(i, c)
    && WellFormed(i) && KeysAre(c, UseList(i), sp) && HoldValues(c, rs, rs2) && KeepsRoles(c)
    && SpillAgree(sp, frame, n, rs, w, rs2, w') && rw.next >= n
  }

  lemma GetReady(isa: Isa, sp: Spills, frame: int, n: nat, m: nat, i: Instr, rs: Regs, w: World, rs': Regs, w': World,
                 r: Result)
    returns (c: ColorMap, rs2: Regs)
    requires Lawful(isa) && SpillsOk(sp) && SpillsBelow(sp, n) && n <= m && Spillable(i, n)
    requires SpillAgree(sp, frame, n, rs, w, rs', w') && Steady(sp, frame, i, rs, r)
    ensures ReadyFor(isa, sp, frame, n, i, UseTurns(sp, Rewriting([], i, [], m), UseList(i)), c, rs, w, rs', w', rs2)
  {
    SlotsReady(sp, frame, n, m, UseList(i), rs, rs', w');
    c, rs2 := UsesLoaded(isa, sp, i, m, rs, rs', w', UseList(i), frame);
    AgreeAfterLoads(sp, n, m, rs, rs', rs2);
  }

  lemma RolesWithDef(i: Instr, c: ColorMap, sp: Spills, t: Reg)
    requires WellFormed(i) && KeepsRoles(c) && t.Virt? && (HasDst(i) ==> t.ty == i.operands[0].reg.ty)
    ensures KeepsRoles(WithDef(i, c, sp, t))
  {
  }

  lemma DefRuns(isa: Isa, touches: Touches, sp: Spills, frame: int, n: nat, i: Instr, j: Instr, c: ColorMap, t: Reg,
                rs: Regs, w: World, rs2: Regs, w': World, v: Value)
    requires Local(isa, touches) && SpillsOk(sp) && Spillable(i, n) && HasDst(i)
    requires KeysAre(c, UseList(i), sp) && HoldValues(c, rs, rs2) && KeepsRoles(WithDef(i, c, sp, t))
    requires SpillAgree(sp, frame, n, rs, w, rs2, w') && Clear(touches, SlotCells(sp, frame), i, rs)
    requires j == Colorize(WithDef(i, c, sp, t), i) && v == ValueOf(isa, i, rs, w)
    ensures Exec(isa, i, rs, w) == Fall(Write(rs, i.operands[0].reg, v), w)
    ensures RunsTo(isa, [j], rs2, w', Write(rs2, Color(WithDef(i, c, sp, t), i.operands[0].reg), v), w')
  {
    var s := WithDef(i, c, sp, t);
    RenamedMatches(sp, i, n, c, t, rs, rs2, j);
    ValueSame(isa, touches, SlotCells(sp, frame), i, j, s, rs, rs2, w, w');
    ExecDst(isa, i, rs, w);
    ExecDst(isa, j, rs2, w');
    assert j.operands[0].reg == Color(s, i.operands[0].reg);
    RunsOne(isa, j, rs2, w', Write(rs2, Color(s, i.operands[0].reg), v), w');
  }

  lemma DefComputed(isa: Isa, touches: Touches, sp: Spills, frame: int, n: nat, i: Instr, rw: Rewriting, c: ColorMap,
                    rs: Regs, w: World, rs': Regs, w': World, rs2: Regs, d: Reg, t: Reg, v: Value)
    requires Local(isa, touches) && SpillsOk(sp) && Spillable(i, n)
    requires ReadyFor(isa, sp, frame, n, i, rw, c, rs, w, rs', w', rs2) && Clear(touches, SlotCells(sp, frame), i, rs)
    requires HasDst(i) && i.operands[0] == RegOp(d) && d in sp.offset && t == Virt(d.ty, rw.next)
    requires v == ValueOf(isa, i, rs, w)
    ensures Exec(isa, i, rs, w) == Fall(Write(rs, d, v), w)
    ensures RunsTo(isa, rw.before + [ReplaceDef(rw.instr, d, t)], rs', w', Write(rs2, t, v), w')
  {
    var j := ReplaceDef(rw.instr, d, t);
    RenamedTwice(i, c, sp, t);
    RolesWithDef(i, c, sp, t);
    DefRuns(isa, touches, sp, frame, n, i, j, c, t, rs, w, rs2, w', v);
    assert Color(WithDef(i, c, sp, t), d) == t;
    RunsBoth(isa, rw.before, [j], rs', w', rs2, w', Write(rs2, t, v), w');
  }

  lemma SpilledDef(isa: Isa, touches: Touches, sp: Spills, frame: int, n: nat, i: Instr, rw: Rewriting, c: ColorMap,
                   rs: Regs, w: World, rs': Regs, w': World, rs2: Regs, d: Reg, t: Reg) returns (rs3: Regs, w3: World)
    requires Lawful(isa) && Local(isa, touches) && SpillsOk(sp) && Spillable(i, n)
    requires ReadyFor(isa, sp, frame, n, i, rw, c, rs, w, rs', w', rs2) && Clear(touches, SlotCells(sp, frame), i, rs)
    requires HasDst(i) && i.operands[0] == RegOp(d) && d in sp.offset && t == Virt(d.ty, rw.next)
    requires Steady(sp, frame, i, rs, Exec(isa, i, rs, w))
    ensures RunsTo(isa, rw.before + [ReplaceDef(rw.instr, d, t)] + StoreSlot(sp, d, t, rw.next + 1), rs', w', rs3, w3)
    ensures SpillOutcome(sp, frame, n, Exec(isa, i, rs, w), Fall(rs3, w3))
  {
    var v, a := ValueOf(isa, i, rs, w), frame + sp.offset[d];
    DefComputed(isa, touches, sp, frame, n, i, rw, c, rs, w, rs', w', rs2, d, t, v);
    w3 := World(w'.mem[a := v], w'.io);
    rs3 := StoredAgrees(isa, sp, frame, n, d, t, v, rw.next + 1, rs, w, rs2, w', a);
    RunsBoth(isa, rw.before + [ReplaceDef(rw.instr, d, t)], StoreSlot(sp, d, t, rw.next + 1),
             rs', w', Write(rs2, t, v), w', rs3, w3);
  }

  lemma PlainDef(isa: Isa, touches: Touches, sp: Spills, frame: int, n: nat, i: Instr, rw: Rewriting, c: ColorMap,
                 rs: Regs, w: World, rs': Regs, w': World, rs2: Regs, d: Reg) returns (rs3: Regs)
    requires Local(isa, touches) && SpillsOk(sp) && Spillable(i, n)
    requires ReadyFor(isa, sp, frame, n, i, rw, c, rs, w, rs', w', rs2) && Clear(touches, SlotCells(sp, frame), i, rs)
    requires HasDst(i) && i.operands[0] == RegOp(d) && d !in sp.offset
    ensures RunsTo(isa, rw.before + [rw.instr], rs', w', rs3, w')
    ensures SpillOutcome(sp, frame, n, Exec(isa, i, rs, w), Fall(rs3, w'))
  {
    var v := ValueOf(isa, i, rs, w);
    RenamedTwice(i, c, sp, d);
    DefRuns(isa, touches, sp, frame, n, i, rw.instr, c, d, rs, w, rs2, w', v);
    assert Color(WithDef(i, c, sp, d), d) == d;
    rs3 := Write(rs2, d, v);
    WriteAgrees(sp, frame, n, d, v, rs, w, rs2, w');
    RunsBoth(isa, rw.before, [rw.instr], rs', w', rs2, w', rs3, w');
  }

  /** Branches, stores, calls and returns. */
  lemma NoDef(isa: Isa, touches: Touches, sp: Spills, frame: int, n: nat, i: Instr, j: Instr, c: ColorMap,
              rs: Regs, w: World, rs2: Regs, w': World)
    requires Local(isa, touches) && SpillsOk(sp) && !HasDst(i) && i.tag != JR
    requires Matches(i, j, c, rs, rs2) && SpillAgree(sp, frame, n, rs, w, rs2, w')
    requires Clear(touches, SlotCells(sp, frame), i, rs)
    ensures SpillOutcome(sp, frame, n, Exec(isa, i, rs, w), Exec(isa, j, rs2, w'))
  {
    assert j.tag == i.tag;
    EffectSame(isa, touches, SlotCells(sp, frame), i, j, c, rs, rs2, w, w');
    var e, e' := EffectOf(isa, i, rs, w), EffectOf(isa, j, rs2, w');
    WorldAgrees(sp, frame, n, rs, w, rs2, w', e.world, e'.world);
    PhysicalKeepsColor(c, i.clobbered);
    ExecByDefs(isa, i, rs, w);
    ExecByDefs(isa, j, rs2, w');
    CallAgrees(sp, frame, n, Defs(i), e.vals, rs, e.world, rs2, e'.world);
  }

  lemma Returns(isa: Isa, sp: Spills, frame: int, n: nat, i: Instr, j: Instr, c: ColorMap, rs: Regs, w: World,
                rs2: Regs, w': World)
    requires i.tag == JR && Matches(i, j, c, rs, rs2) && SpillAgree(sp, frame, n, rs, w, rs2, w')
    ensures SpillOutcome(sp, frame, n, Exec(isa, i, rs, w), Exec(isa, j, rs2, w'))
  {
    assert j.tag == i.tag;
  }

  /** What an instruction of the original run has to meet. */
  ghost predicate Framed(isa: Isa, touches: Touches, sp: Spills, frame: int, i: Instr, rs: Regs, w: World)
    requires WellFormed(i)
  {
    Clear(touches, SlotCells(sp, frame), i, rs) && Steady(sp, frame, i, rs, Exec(isa, i, rs, w))
  }

  lemma DstSpilled(isa: Isa, touches: Touches, sp: Spills, frame: int, n: nat, m: nat, i: Instr, rw: Rewriting,
                   c: ColorMap,
                   rs: Regs, w: World, rs': Regs, w': World, rs2: Regs)
    requires Lawful(isa) && Local(isa, touches) && SpillsOk(sp) && Spillable(i, n) && HasDst(i)
    requires Framed(isa, touches, sp, frame, i, rs, w)
    requires rw == UseTurns(sp, Rewriting([], i, [], m), UseList(i))
    requires ReadyFor(isa, sp, frame, n, i, rw, c, rs, w, rs', w', rs2)
    ensures WellFormedBlock(SpillInstr(sp, i, m))
    ensures SpillOutcome(sp, frame, n, Exec(isa, i, rs, w), ExecBlock(isa, SpillInstr(sp, i, m), rs', w'))
  {
    var d := i.operands[0].reg;
    if d in sp.offset {
      var t := Virt(d.ty, rw.next);
      var rs3, w3 := SpilledDef(isa, touches, sp, frame, n, i, rw, c, rs, w, rs', w', rs2, d, t);
      OneDefined(sp, rw, d, t);
      assert Defs(i) == [d];
    } else {
      var rs3 := PlainDef(isa, touches, sp, frame, n, i, rw, c, rs, w, rs', w', rs2, d);
      NothingDefined(sp, rw, Defs(i));
      assert SpillInstr(sp, i, m) == rw.before + [rw.instr];
    }
  }

  lemma PhysicalNotSpilled(sp: Spills, i: Instr)
    requires SpillsOk(sp) && WellFormed(i) && !HasDst(i)
    ensures forall d :: d in Defs(i) ==> d !in sp.offset
  {
  }

  lemma NoDstSpilled(isa: Isa, touches: Touches, sp: Spills, frame: int, n: nat, m: nat, i: Instr, rw: Rewriting,
                     c: ColorMap,
                     rs: Regs, w: World, rs': Regs, w': World, rs2: Regs)
    requires Local(isa, touches) && SpillsOk(sp) && Spillable(i, n) && !HasDst(i)
    requires Framed(isa, touches, sp, frame, i, rs, w)
    requires rw == UseTurns(sp, Rewriting([], i, [], m), UseList(i))
    requires ReadyFor(isa, sp, frame, n, i, rw, c, rs, w, rs', w', rs2)
    ensures WellFormedBlock(SpillInstr(sp, i, m))
    ensures SpillOutcome(sp, frame, n, Exec(isa, i, rs, w), ExecBlock(isa, SpillInstr(sp, i, m), rs', w'))
  {
    RenamedUsesOnly(i, c);
    RenamedMatches(sp, i, n, c, ZERO, rs, rs2, rw.instr);
    if i.tag == JR {
      Returns(isa, sp, frame, n, i, rw.instr, c, rs, w, rs2, w');
    } else {
      NoDef(isa, touches, sp, frame, n, i, rw.instr, c, rs, w, rs2, w');
    }
    PhysicalNotSpilled(sp, i);
    NothingDefined(sp, rw, Defs(i));
    assert SpillInstr(sp, i, m) == rw.before + [rw.instr];
    OneInstruction(isa, rw.instr, rs2, w');
    ExecAppend(isa, rw.before, [rw.instr], rs', w');
  }

  lemma OneInstruction(isa: Isa, i: Instr, rs: Regs, w: World)
    requires WellFormed(i)
    ensures WellFormedBlock([i]) && ExecBlock(isa, [i], rs, w) == Exec(isa, i, rs, w)
  {
    assert [i][1..] == [];
  }

  /** One instruction and what it is rewritten to. */
  lemma InstrSpilled(isa: Isa, touches: Touches, sp: Spills, frame: int, n: nat, m: nat, i: Instr,
                     rs: Regs, w: World, rs': Regs, w': World)
    requires Lawful(isa) && Local(isa, touches) && SpillsOk(sp) && SpillsBelow(sp, n) && n <= m && Spillable(i, n)
    requires Framed(isa, touches, sp, frame, i, rs, w) && SpillAgree(sp, frame, n, rs, w, rs', w')
    ensures WellFormedBlock(SpillInstr(sp, i, m))
    ensures SpillOutcome(sp, frame, n, Exec(isa, i, rs, w), ExecBlock(isa, SpillInstr(sp, i, m), rs', w'))
  {
    var c, rs2 := GetReady(isa, sp, frame, n, m, i, rs, w, rs', w', Exec(isa, i, rs, w));
    var rw := UseTurns(sp, Rewriting([], i, [], m), UseList(i));
    if HasDst(i) {
      DstSpilled(isa, touches, sp, frame, n, m, i, rw, c, rs, w, rs', w', rs2);
    } else {
      NoDstSpilled(isa, touches, sp, frame, n, m, i, rw, c, rs, w, rs', w', rs2);
    }
  }

  // ----- the new code is well formed -----

  lemma BothOk(a: Block, b: Block)
    requires WellFormedBlock(a) && WellFormedBlock(b)
    ensures WellFormedBlock(a + b)
  {
  }

  lemma AddressOk(dst: Reg, src: Reg, val: int, n: nat)
    requires !Imm12(val)
    ensures WellFormedBlock(AddIntToReg(dst, src, val, n))
  {
  }

  lemma OpsOk(ty: RegType, t: Reg, base: Reg, off: int)
    ensures WellFormed(LoadOp(ty, t, base, off)) && WellFormed(StoreOp(ty, t, base, off))
  {
  }

  lemma LoadSlotOk(sp: Spills, r: Reg, t: Reg, n: nat)
    requires r in sp.offset
    ensures WellFormedBlock(LoadSlot(sp, r, t, n))
  {
    var off, base, at := sp.offset[r], Base(sp, r), Virt(General, n);
    OpsOk(r.ty, t, base, off);
    OpsOk(r.ty, t, at, 0);
    if !Imm12(off) {
      AddressOk(at, base, off, n + 1);
      BothOk(AddIntToReg(at, base, off, n + 1), [LoadOp(r.ty, t, at, 0)]);
    }
  }

  lemma StoreSlotOk(sp: Spills, r: Reg, t: Reg, n: nat)
    requires r in sp.offset
    ensures WellFormedBlock(StoreSlot(sp, r, t, n))
  {
    var off, base, at := sp.offset[r], Base(sp, r), Virt(General, n);
    OpsOk(r.ty, t, base, off);
    OpsOk(r.ty, t, at, 0);
    if !Imm12(off) {
      AddressOk(at, base, off, n + 1);
      BothOk(AddIntToReg(at, base, off, n + 1), [StoreOp(r.ty, t, at, 0)]);
    }
  }

  lemma ReplaceUseOk(i: Instr, r: Reg, t: Reg)
    requires WellFormed(i) && t.ty == r.ty
    ensures WellFormed(ReplaceUse(i, r, t))
  {
  }

  lemma ReplaceDefOk(i: Instr, r: Reg, t: Reg)
    requires WellFormed(i) && t.ty == r.ty
    ensures WellFormed(ReplaceDef(i, r, t))
  {
  }

  ghost predicate RewritingOk(rw: Rewriting) {
    WellFormedBlock(rw.before) && WellFormed(rw.instr) && WellFormedBlock(rw.after)
  }

  lemma UseTurnOk(sp: Spills, rw: Rewriting, r: Reg)
    requires RewritingOk(rw)
    ensures RewritingOk(UseTurn(sp, rw, r))
  {
    if r in sp.offset {
      var t := Virt(r.ty, rw.next);
      LoadSlotOk(sp, r, t, rw.next + 1);
      BothOk(rw.before, LoadSlot(sp, r, t, rw.next + 1));
      ReplaceUseOk(rw.instr, r, t);
    }
  }

  lemma DefTurnOk(sp: Spills, rw: Rewriting, r: Reg)
    requires RewritingOk(rw)
    ensures RewritingOk(DefTurn(sp, rw, r))
  {
    if r in sp.offset {
      var t := Virt(r.ty, rw.next);
      StoreSlotOk(sp, r, t, rw.next + 1);
      BothOk(StoreSlot(sp, r, t, rw.next + 1), rw.after);
      ReplaceDefOk(rw.instr, r, t);
    }
  }

  lemma {:induction false} UseTurnsOk(sp: Spills, rw: Rewriting, us: seq<Reg>)
    requires RewritingOk(rw)
    ensures RewritingOk(UseTurns(sp, rw, us))
  {
    if us != [] {
      UseTurnsOk(sp, rw, us[..|us| - 1]);
      UseTurnOk(sp, UseTurns(sp, rw, us[..|us| - 1]), us[|us| - 1]);
    }
  }

  lemma {:induction false} DefTurnsOk(sp: Spills, rw: Rewriting, ds: seq<Reg>)
    requires RewritingOk(rw)
    ensures RewritingOk(DefTurns(sp, rw, ds))
  {
    if ds != [] {
      DefTurnsOk(sp, rw, ds[..|ds| - 1]);
      DefTurnOk(sp, DefTurns(sp, rw, ds[..|ds| - 1]), ds[|ds| - 1]);
    }
  }

  lemma InstrOk(sp: Spills, i: Instr, m: nat)
    requires WellFormed(i)
    ensures RewritingOk(Rewritten(sp, i, m)) && WellFormedBlock(SpillInstr(sp, i, m))
  {
    UseTurnsOk(sp, Rewriting([], i, [], m), UseList(i));
    DefTurnsOk(sp, UseTurns(sp, Rewriting([], i, [], m), UseList(i)), Defs(i));
  }

  // ----- blocks and runs -----

  function SpillBlock(sp: Spills, b: Block, m: nat): Block
    requires WellFormedBlock(b)
  {
    if b == [] then [] else SpillInstr(sp, b[0], m) + SpillBlock(sp, b[1..], Rewritten(sp, b[0], m).next)
  }

  /** The next fresh number after a block. */
  function AfterBlock(sp: Spills, b: Block, m: nat): nat
    requires WellFormedBlock(b)
  {
    if b == [] then m else AfterBlock(sp, b[1..], Rewritten(sp, b[0], m).next)
  }

  lemma {:induction false} UseTurnsCount(sp: Spills, rw: Rewriting, us: seq<Reg>)
    ensures UseTurns(sp, rw, us).next >= rw.next
  {
    if us != [] {
      UseTurnsCount(sp, rw, us[..|us| - 1]);
    }
  }

  lemma {:induction false} DefTurnsCount(sp: Spills, rw: Rewriting, ds: seq<Reg>)
    ensures DefTurns(sp, rw, ds).next >= rw.next
  {
    if ds != [] {
      DefTurnsCount(sp, rw, ds[..|ds| - 1]);
    }
  }

  lemma NumbersGrow(sp: Spills, i: Instr, m: nat)
    requires WellFormed(i)
    ensures Rewritten(sp, i, m).next >= m
  {
    UseTurnsCount(sp, Rewriting([], i, [], m), UseList(i));
    DefTurnsCount(sp, UseTurns(sp, Rewriting([], i, [], m), UseList(i)), Defs(i));
  }

  lemma {:induction false} BlockNumbersGrow(sp: Spills, b: Block, m: nat)
    requires WellFormedBlock(b)
    ensures AfterBlock(sp, b, m) >= m
  {
    if b != [] {
      NumbersGrow(sp, b[0], m);
      BlockNumbersGrow(sp, b[1..], Rewritten(sp, b[0], m).next);
    }
  }

  lemma {:induction false} BlockOk(sp: Spills, b: Block, m: nat)
    requires WellFormedBlock(b)
    ensures WellFormedBlock(SpillBlock(sp, b, m))
  {
    if b != [] {
      var k := Rewritten(sp, b[0], m).next;
      InstrOk(sp, b[0], m);
      BlockOk(sp, b[1..], k);
      BothOk(SpillInstr(sp, b[0], m), SpillBlock(sp, b[1..], k));
    }
  }

  // ----- the new code passes the builder's check -----

  ghost predicate RewritingChecked(rw: Rewriting) {
    AllChecked(rw.before) && Checked(rw.instr) && AllChecked(rw.after)
  }

  lemma ReplacedChecked(i: Instr, r: Reg, t: Reg)
    requires Checked(i) && t.ty == r.ty
    ensures Checked(ReplaceUse(i, r, t)) && Checked(ReplaceDef(i, r, t))
  {
  }

  lemma BothChecked(a: Block, b: Block)
    requires AllChecked(a) && AllChecked(b)
    ensures AllChecked(a + b) && AllChecked(b + a)
  {
  }

  lemma UseTurnChecked(sp: Spills, rw: Rewriting, r: Reg)
    requires SpillsOk(sp) && RewritingChecked(rw)
    ensures RewritingChecked(UseTurn(sp, rw, r))
  {
    if r in sp.offset {
      var t := Virt(r.ty, rw.next);
      SlotsChecked(sp, r, t, rw.next + 1);
      ReplacedChecked(rw.instr, r, t);
      BothChecked(rw.before, LoadSlot(sp, r, t, rw.next + 1));
      UseTurnIs(sp, rw, r, t);
    }
  }

  lemma DefTurnChecked(sp: Spills, rw: Rewriting, r: Reg)
    requires SpillsOk(sp) && RewritingChecked(rw)
    ensures RewritingChecked(DefTurn(sp, rw, r))
  {
    if r in sp.offset {
      var t := Virt(r.ty, rw.next);
      SlotsChecked(sp, r, t, rw.next + 1);
      ReplacedChecked(rw.instr, r, t);
      BothChecked(rw.after, StoreSlot(sp, r, t, rw.next + 1));
      DefTurnIs(sp, rw, r, t);
    }
  }

  lemma {:induction false} TurnsChecked(sp: Spills, rw: Rewriting, rs: seq<Reg>)
    requires SpillsOk(sp) && RewritingChecked(rw)
    ensures RewritingChecked(UseTurns(sp, rw, rs)) && RewritingChecked(DefTurns(sp, rw, rs))
  {
    if rs != [] {
      var init, r := rs[..|rs| - 1], rs[|rs| - 1];
      TurnsChecked(sp, rw, init);
      UseTurnChecked(sp, UseTurns(sp, rw, init), r);
      DefTurnChecked(sp, DefTurns(sp, rw, init), r);
    }
  }

  /** Immediates fit and registers are of the right types, if they were before. */
  lemma {:induction false} SpilledChecked(sp: Spills, b: Block, m: nat)
    requires SpillsOk(sp) && WellFormedBlock(b) && AllChecked(b)
    ensures AllChecked(SpillBlock(sp, b, m))
  {
    if b != [] {
      var rw := Rewriting([], b[0], [], m);
      TurnsChecked(sp, rw, UseList(b[0]));
      TurnsChecked(sp, UseTurns(sp, rw, UseList(b[0])), Defs(b[0]));
      SpilledChecked(sp, b[1..], Rewritten(sp, b[0], m).next);
    }
  }

  // ----- the new code can be rewritten again -----

  lemma LaterSpillable(b: Block, n: nat, m: nat)
    requires SpillableBlock(b, n) && n <= m
    ensures SpillableBlock(b, m)
  {
    forall i | i in b
      ensures Spillable(i, m)
    {
      assert Spillable(i, n);
    }
  }

  lemma LaterInstr(i: Instr, n: nat, m: nat)
    requires Spillable(i, n) && n <= m
    ensures Spillable(i, m)
  {
    assert i in [i];
    LaterSpillable([i], n, m);
  }

  lemma DefTurnIs(sp: Spills, rw: Rewriting, r: Reg, t: Reg)
    requires r in sp.offset && t == Virt(r.ty, rw.next)
    ensures DefTurn(sp, rw, r) ==
      Rewriting(rw.before, ReplaceDef(rw.instr, r, t), StoreSlot(sp, r, t, rw.next + 1) + rw.after,
                AfterSlot(sp, r, rw.next + 1))
  {
  }

  lemma OpsSpillable(ty: RegType, t: Reg, base: Reg, off: int, n: nat)
    requires Below(t, n) && Below(base, n) && t != base
    ensures Spillable(LoadOp(ty, t, base, off), n) && Spillable(StoreOp(ty, t, base, off), n)
  {
    NamedRRI(LoadOp(ty, t, base, off).tag, LoadOp(ty, t, base, off).suffix, t, base, off, n);
    NamedRRI(StoreOp(ty, t, base, off).tag, StoreOp(ty, t, base, off).suffix, t, base, off, n);
  }

  lemma NamedRRI(tag: Tag, suffix: Suffix, d: Reg, s: Reg, k: int, n: nat)
    requires tag != MOV && tag != BL && tag != JR && Below(d, n) && Below(s, n) && d != s
    ensures Spillable(Plain(tag, suffix, [RegOp(d), RegOp(s), ImmOp(k)]), n)
  {
    ShapeRRI(tag, suffix, d, s, k);
  }

  lemma PartsSpillable(hi: int, lo: int, reg: Reg, n: nat)
    requires reg.Virt? && reg.id < n
    ensures SpillableBlock(LoadParts(hi, lo, reg, n), n + 1)
  {
    var tmp := Virt(General, n);
    if hi == 0 {
      NamedRRI(ORI, NONE, reg, ZERO, lo, n + 1);
    } else {
      NamedRRI(ORI, NONE, reg, tmp, lo, n + 1);
      HighSpillable(tmp, hi, n + 1);
      BothSpillable([Plain(LU12I_W, NONE, [RegOp(tmp), ImmOp(hi)])],
                    [Plain(ORI, NONE, [RegOp(reg), RegOp(tmp), ImmOp(lo)])], n + 1, n + 1);
    }
  }

  lemma HighSpillable(tmp: Reg, hi: int, n: nat)
    requires tmp.Virt? && tmp.id < n
    ensures Spillable(Plain(LU12I_W, NONE, [RegOp(tmp), ImmOp(hi)]), n)
  {
    ShapeRI(tmp, hi);
  }

  lemma FarSpillable(base: Reg, off: int, n: nat)
    requires base.Phys? && !Imm12(off)
    ensures SpillableBlock(AddIntToReg(Virt(General, n), base, off, n + 1), n + 3)
  {
    PartsSpillable(off / 4096, off % 4096, Virt(General, n + 1), n + 2);
    ShapeRRR(Virt(General, n), base, Virt(General, n + 1));
  }

  lemma SlotSpillable(sp: Spills, r: Reg, t: Reg, n: nat)
    requires r in sp.offset && t.Virt? && t.id < n
    ensures SpillableBlock(LoadSlot(sp, r, t, n), AfterSlot(sp, r, n))
    ensures SpillableBlock(StoreSlot(sp, r, t, n), AfterSlot(sp, r, n))
  {
    var off, base, at := sp.offset[r], Base(sp, r), Virt(General, n);
    if Imm12(off) {
      OpsSpillable(r.ty, t, base, off, n);
    } else {
      FarSpillable(base, off, n);
      OpsSpillable(r.ty, t, at, 0, n + 3);
    }
  }

  /** All new registers are numbered below the next one, and no instruction has come to read what
      it writes. */
  ghost predicate RewritingSpillable(rw: Rewriting) {
    SpillableBlock(rw.before, rw.next) && Spillable(rw.instr, rw.next) && SpillableBlock(rw.after, rw.next)
  }

  lemma ReplacedUseSpillable(i: Instr, r: Reg, t: Reg, n: nat)
    requires Spillable(i, n) && t.Virt? && t.id == n && t.ty == r.ty
    ensures Spillable(ReplaceUse(i, r, t), n + 1)
  {
    var j := ReplaceUse(i, r, t);
    ReplaceUseOk(i, r, t);
    TagsAgree(i);
    forall o | o in j.operands && o.RegOp?
      ensures Below(o.reg, n + 1)
    {
      assert o == RegOp(t) || o in i.operands;
    }
    if HasDst(j) {
      forall q | q in Reads(j) && RegOp(q) == j.operands[0]
        ensures q == SP || q == ZERO
      {
        ReadFromBefore(i, r, t, n, q);
      }
    }
  }

  lemma ReadFromBefore(i: Instr, r: Reg, t: Reg, n: nat, q: Reg)
    requires Spillable(i, n) && t.Virt? && t.id == n && t.ty == r.ty && HasDst(i) && WellFormed(ReplaceUse(i, r, t))
    requires q in Reads(ReplaceUse(i, r, t)) && RegOp(q) == i.operands[0]
    ensures q in Reads(i)
  {
    var j := ReplaceUse(i, r, t);
    assert i.operands[0] in i.operands;
    assert RegOp(q) in j.operands[1..];
    var k :| 0 <= k < |j.operands[1..]| && j.operands[1..][k] == RegOp(q);
    assert i.operands[1..][k] == RegOp(q);
  }

  lemma ReplacedDefSpillable(i: Instr, r: Reg, t: Reg, n: nat)
    requires Spillable(i, n) && t.Virt? && t.id == n && t.ty == r.ty
    ensures Spillable(ReplaceDef(i, r, t), n + 1)
  {
    var j := ReplaceDef(i, r, t);
    ReplaceDefOk(i, r, t);
    TagsAgree(i);
    if HasDst(i) {
      assert j.operands[1..] == i.operands[1..];
      forall q | q in Reads(j)
        ensures Below(q, n)
      {
        assert RegOp(q) in i.operands[1..];
        assert RegOp(q) in i.operands;
      }
    }
    forall o | o in j.operands && o.RegOp?
      ensures Below(o.reg, n + 1)
    {
      assert o == RegOp(t) || o in i.operands;
    }
  }

  lemma BothSpillable(a: Block, b: Block, n: nat, m: nat)
    requires SpillableBlock(a, n) && n <= m && SpillableBlock(b, m)
    ensures SpillableBlock(a + b, m) && SpillableBlock(b + a, m)
  {
    LaterSpillable(a, n, m);
  }

  lemma UseTurnSpillable(sp: Spills, rw: Rewriting, r: Reg)
    requires RewritingSpillable(rw)
    ensures RewritingSpillable(UseTurn(sp, rw, r))
  {
    if r in sp.offset {
      var t, n := Virt(r.ty, rw.next), AfterSlot(sp, r, rw.next + 1);
      SlotSpillable(sp, r, t, rw.next + 1);
      ReplacedUseSpillable(rw.instr, r, t, rw.next);
      LaterInstr(ReplaceUse(rw.instr, r, t), rw.next + 1, n);
      BothSpillable(rw.before, LoadSlot(sp, r, t, rw.next + 1), rw.next, n);
      LaterSpillable(rw.after, rw.next, n);
      UseTurnIs(sp, rw, r, t);
    }
  }

  lemma DefTurnSpillable(sp: Spills, rw: Rewriting, r: Reg)
    requires RewritingSpillable(rw)
    ensures RewritingSpillable(DefTurn(sp, rw, r))
  {
    if r in sp.offset {
      var t, n := Virt(r.ty, rw.next), AfterSlot(sp, r, rw.next + 1);
      SlotSpillable(sp, r, t, rw.next + 1);
      ReplacedDefSpillable(rw.instr, r, t, rw.next);
      LaterInstr(ReplaceDef(rw.instr, r, t), rw.next + 1, n);
      BothSpillable(rw.after, StoreSlot(sp, r, t, rw.next + 1), rw.next, n);
      LaterSpillable(rw.before, rw.next, n);
      DefTurnIs(sp, rw, r, t);
    }
  }

  lemma {:induction false} TurnsSpillable(sp: Spills, rw: Rewriting, rs: seq<Reg>)
    requires RewritingSpillable(rw)
    ensures RewritingSpillable(UseTurns(sp, rw, rs)) && RewritingSpillable(DefTurns(sp, rw, rs))
  {
    if rs != [] {
      var init, r := rs[..|rs| - 1], rs[|rs| - 1];
      TurnsSpillable(sp, rw, init);
      UseTurnSpillable(sp, UseTurns(sp, rw, init), r);
      DefTurnSpillable(sp, DefTurns(sp, rw, init), r);
    }
  }

  /** The rewritten code meets what rewriting asks for, with the next number as the bound. */
  lemma {:induction false} SpilledSpillable(sp: Spills, b: Block, m: nat)
    requires WellFormedBlock(b) && SpillableBlock(b, m)
    ensures SpillableBlock(SpillBlock(sp, b, m), AfterBlock(sp, b, m))
  {
    if b != [] {
      var rw := Rewriting([], b[0], [], m);
      var next := Rewritten(sp, b[0], m).next;
      TurnsSpillable(sp, rw, UseList(b[0]));
      TurnsSpillable(sp, UseTurns(sp, rw, UseList(b[0])), Defs(b[0]));
      NumbersGrow(sp, b[0], m);
      LaterSpillable(b[1..], m, next);
      SpilledSpillable(sp, b[1..], next);
      BlockNumbersGrow(sp, b[1..], next);
      LaterSpillable(SpillInstr(sp, b[0], m), next, AfterBlock(sp, b[1..], next));
    }
  }

  /** Every instruction that the original run executes in the block meets what it has to. */
  ghost predicate BlockFramed(isa: Isa, touches: Touches, sp: Spills, frame: int, b: Block, rs: Regs, w: World)
    requires WellFormedBlock(b)
  {
    b != [] ==>
      && Framed(isa, touches, sp, frame, b[0], rs, w)
      && (var r := Exec(isa, b[0], rs, w); r.Fall? ==> BlockFramed(isa, touches, sp, frame, b[1..], r.rs, r.world))
  }

  ghost predicate SpillableBlock(b: Block, n: nat) {
    forall i :: i in b ==> Spillable(i, n)
  }

  lemma {:induction false} BlockSpilled(isa: Isa, touches: Touches, sp: Spills, frame: int, n: nat, m: nat, b: Block,
                                        rs: Regs, w: World, rs': Regs, w': World)
    requires Lawful(isa) && Local(isa, touches) && SpillsOk(sp) && SpillsBelow(sp, n) && n <= m
    requires WellFormedBlock(b) && SpillableBlock(b, n) && BlockFramed(isa, touches, sp, frame, b, rs, w)
    requires SpillAgree(sp, frame, n, rs, w, rs', w')
    ensures WellFormedBlock(SpillBlock(sp, b, m))
    ensures SpillOutcome(sp, frame, n, ExecBlock(isa, b, rs, w), ExecBlock(isa, SpillBlock(sp, b, m), rs', w'))
    decreases |b|
  {
    if b != [] {
      assert b[0] in b;
      var k := Rewritten(sp, b[0], m).next;
      var first, rest := SpillInstr(sp, b[0], m), SpillBlock(sp, b[1..], k);
      InstrSpilled(isa, touches, sp, frame, n, m, b[0], rs, w, rs', w');
      NumbersGrow(sp, b[0], m);
      BlockOk(sp, b[1..], k);
      BothOk(first, rest);
      ExecAppend(isa, first, rest, rs', w');
      var r, r' := Exec(isa, b[0], rs, w), ExecBlock(isa, first, rs', w');
      if r.Fall? {
        BlockSpilled(isa, touches, sp, frame, n, k, b[1..], r.rs, r.world, r'.rs, r'.world);
      }
    }
  }

  ghost predicate SpillableProgram(p: Program, n: nat) {
    forall l :: l in p ==> SpillableBlock(p[l], n)
  }

  /** Every block of q is what the block of p is rewritten to, with numbers from n on. */
  ghost predicate SpillsTo(sp: Spills, p: Program, q: Program, n: nat) {
    && WellFormedProgram(p) && q.Keys == p.Keys
    && forall l {:trigger q[l]} :: l in p ==> exists m: nat :: n <= m && q[l] == SpillBlock(sp, p[l], m)
  }

  ghost predicate RunFramed(isa: Isa, touches: Touches, sp: Spills, frame: int, p: Program, n: nat, l: nat, rs: Regs,
                            w: World)
    requires WellFormedProgram(p)
  {
    n > 0 && l in p ==>
      && BlockFramed(isa, touches, sp, frame, p[l], rs, w)
      && (var r := ExecBlock(isa, p[l], rs, w);
          r.Goto? ==> RunFramed(isa, touches, sp, frame, p, n - 1, r.target, r.rs, r.world))
  }

  /** The two runs after the same number of blocks. */
  ghost predicate SpillRun(sp: Spills, frame: int, n: nat, r: Run, r': Run) {
    match r
    case At(l, rs, w) => r'.At? && r'.target == l && SpillAgree(sp, frame, n, rs, w, r'.rs, r'.world)
    case Done(vals, w) => r'.Done? && r'.vals == vals && SameOutside(w, r'.world, SlotCells(sp, frame))
    case Stuck => r' == Stuck
  }

  lemma SpillsWellFormed(sp: Spills, p: Program, q: Program, n: nat)
    requires SpillsTo(sp, p, q, n)
    ensures WellFormedProgram(q)
  {
    forall l | l in q
      ensures WellFormedBlock(q[l])
    {
      var m: nat :| n <= m && q[l] == SpillBlock(sp, p[l], m);
      BlockOk(sp, p[l], m);
    }
  }

  lemma OneBlockSpilled(isa: Isa, touches: Touches, sp: Spills, frame: int, n: nat, p: Program, q: Program, l: nat,
                        rs: Regs, w: World, rs': Regs, w': World)
    requires Lawful(isa) && Local(isa, touches) && SpillsOk(sp) && SpillsBelow(sp, n)
    requires SpillsTo(sp, p, q, n) && SpillableProgram(p, n) && l in p &&
      BlockFramed(isa, touches, sp, frame, p[l], rs, w)
    requires SpillAgree(sp, frame, n, rs, w, rs', w')
    ensures WellFormedBlock(q[l])
    ensures SpillOutcome(sp, frame, n, ExecBlock(isa, p[l], rs, w), ExecBlock(isa, q[l], rs', w'))
  {
    var m: nat :| n <= m && q[l] == SpillBlock(sp, p[l], m);
    BlockSpilled(isa, touches, sp, frame, n, m, p[l], rs, w, rs', w');
  }

  /** Spill rewriting preserves meaning: for any number of steps the two programs go through the
      same blocks with the same results, calls and memory outside the slots, all registers that
      were not spilled agree, and every spilled one is found in its slot. */
  lemma {:induction false} SpillPreservesRuns(isa: Isa, touches: Touches, sp: Spills, frame: int, n: nat, p: Program,
                                              q: Program,
                                              steps: nat, l: nat, rs: Regs, w: World, rs': Regs, w': World)
    requires Lawful(isa) && Local(isa, touches) && SpillsOk(sp) && SpillsBelow(sp, n)
    requires SpillsTo(sp, p, q, n) && SpillableProgram(p, n)
    requires RunFramed(isa, touches, sp, frame, p, steps, l, rs, w)
    requires SpillAgree(sp, frame, n, rs, w, rs', w')
    ensures WellFormedProgram(q)
    ensures SpillRun(sp, frame, n, RunBlocks(isa, p, steps, l, rs, w), RunBlocks(isa, q, steps, l, rs', w'))
    decreases steps
  {
    SpillsWellFormed(sp, p, q, n);
    if steps > 0 && l in p {
      OneBlockSpilled(isa, touches, sp, frame, n, p, q, l, rs, w, rs', w');
      var r, r' := ExecBlock(isa, p[l], rs, w), ExecBlock(isa, q[l], rs', w');
      if r.Goto? {
        SpillPreservesRuns(isa, touches, sp, frame, n, p, q, steps - 1, r.target, r.rs, r.world, r'.rs, r'.world);
      }
    }
  }
}
