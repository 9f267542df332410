// The pass over a function that moves its spilled registers to the frame.

module SpillRewriting {
  import opened Machine
  import opened SlotCode
  import opened SpillCode
  import opened Frame

  lemma SpillPrefix(sp: Spills, b: Block, k: nat, m: nat)
    requires WellFormedBlock(b) && k < |b| && WellFormedBlock(b[..k]) && WellFormedBlock(b[..k + 1])
    ensures SpillBlock(sp, b[..k + 1], m) == SpillBlock(sp, b[..k], m) + SpillInstr(sp, b[k], AfterBlock(sp, b[..k], m))
    ensures AfterBlock(sp, b[..k + 1], m) == Rewritten(sp, b[k], AfterBlock(sp, b[..k], m)).next
  {
    assert b[..k + 1] == b[..k] + [b[k]];
    SpillAppend(sp, b[..k], b[k], m);
  }

  lemma Regrouped(a: Block, b: Block, c: Block)
    ensures a + (b + c) == a + b + c
  {
  }

  /** Rewriting the first instruction of a block, then the rest. */
  lemma SpillFirst(sp: Spills, i: Instr, rest: Block, b: Block, m: nat)
    requires WellFormed(i) && WellFormedBlock(rest) && b == [i] + rest && WellFormedBlock(b)
    ensures SpillBlock(sp, b, m) == SpillInstr(sp, i, m) + SpillBlock(sp, rest, Rewritten(sp, i, m).next)
    ensures AfterBlock(sp, b, m) == AfterBlock(sp, rest, Rewritten(sp, i, m).next)
  {
    assert b[0] == i && b[1..] == rest;
  }

  lemma {:induction false} SpillAppend(sp: Spills, a: Block, i: Instr, m: nat)
    requires WellFormedBlock(a) && WellFormed(i) && WellFormedBlock(a + [i])
    ensures SpillBlock(sp, a + [i], m) == SpillBlock(sp, a, m) + SpillInstr(sp, i, AfterBlock(sp, a, m))
    ensures AfterBlock(sp, a + [i], m) == Rewritten(sp, i, AfterBlock(sp, a, m)).next
    decreases |a|
  {
    if a == [] {
      SpillFirst(sp, i, [], a + [i], m);
    } else {
      var k := Rewritten(sp, a[0], m).next;
      BothOk(a[1..], [i]);
      SpillFirst(sp, a[0], a[1..], a, m);
      SpillFirst(sp, a[0], a[1..] + [i], a + [i], m);
      SpillAppend(sp, a[1..], i, k);
      Regrouped(SpillInstr(sp, a[0], m), SpillBlock(sp, a[1..], k), SpillInstr(sp, i, AfterBlock(sp, a, m)));
    }
  }

  /** The blocks that have been done are rewritten, with numbers from n up to next; the others are
      as before. */
  ghost predicate SpillsSome(sp: Spills, p: Program, q: Program, n: nat, next: nat, done: seq<nat>) {
    && WellFormedProgram(p) && q.Keys == p.Keys && n <= next
    && forall l {:trigger q[l]} :: l in p ==> if l in done then SpilledBelow(sp, p[l], q[l], n, next) else q[l] == p[l]
  }

  ghost predicate SpilledBelow(sp: Spills, b: Block, c: Block, n: nat, next: nat)
    requires WellFormedBlock(b)
  {
    exists m: nat :: n <= m && AfterBlock(sp, b, m) <= next && c == SpillBlock(sp, b, m)
  }

  lemma OneMoreSpilled(sp: Spills, p: Program, q: Program, n: nat, done: seq<nat>, l: nat, m: nat)
    requires SpillsSome(sp, p, q, n, m, done) && l in p
    ensures SpillsSome(sp, p, q[l := SpillBlock(sp, p[l], m)], n, AfterBlock(sp, p[l], m), done + [l])
  {
    BlockNumbersGrow(sp, p[l], m);
    var q' := q[l := SpillBlock(sp, p[l], m)];
    forall k {:trigger q'[k]} | k in p
      ensures if k in done + [l] then SpilledBelow(sp, p[k], q'[k], n, AfterBlock(sp, p[l], m)) else q'[k] == p[k]
    {
      if k != l && k in done {
        assert SpilledBelow(sp, p[k], q[k], n, m);
      }
    }
  }

  /** The rewritten program can be rewritten again: its registers are numbered below next. */
  lemma SpilledAgain(sp: Spills, p: Program, q: Program, n: nat, next: nat, done: seq<nat>)
    requires SpillsSome(sp, p, q, n, next, done) && (forall l :: l in p ==> l in done)
    ensures SpillsTo(sp, p, q, n) && (SpillableProgram(p, n) ==> SpillableProgram(q, next))
  {
    forall l {:trigger q[l]} | l in p
      ensures exists m: nat :: n <= m && q[l] == SpillBlock(sp, p[l], m)
      ensures SpillableProgram(p, n) ==> SpillableBlock(q[l], next)
    {
      assert SpilledBelow(sp, p[l], q[l], n, next);
      var m: nat :| n <= m && AfterBlock(sp, p[l], m) <= next && q[l] == SpillBlock(sp, p[l], m);
      if SpillableProgram(p, n) {
        LaterSpillable(p[l], n, m);
        SpilledSpillable(sp, p[l], m);
        LaterSpillable(q[l], AfterBlock(sp, p[l], m), next);
      }
    }
  }

  /** All instructions pass the check of the builder. */
  ghost predicate CheckedProgram(p: Program) {
    forall l :: l in p ==> AllChecked(p[l])
  }

  lemma RewrittenChecked(sp: Spills, p: Program, q: Program, n: nat)
    requires SpillsOk(sp) && SpillsTo(sp, p, q, n) && CheckedProgram(p)
    ensures CheckedProgram(q)
  {
    forall l | l in q
      ensures AllChecked(q[l])
    {
      var m: nat :| n <= m && q[l] == SpillBlock(sp, p[l], m);
      SpilledChecked(sp, p[l], m);
    }
  }

  class SpillRewriting {
    var code: Program
    var next_virtual_reg_id: nat
    const frame_scheduler: FrameScheduler

    constructor (code: Program, next: nat, frame: FrameScheduler)
      ensures this.code == code && next_virtual_reg_id == next && frame_scheduler == frame
    {
      this.code, next_virtual_reg_id, frame_scheduler := code, next, frame;
    }

    /** Loads in front of instr, for the registers in uses. */
    method LoadUses(sp: Spills, instr: Instr, uses: seq<Reg>) returns (loads: Block, i: Instr)
      modifies this`next_virtual_reg_id
      ensures Rewriting(loads, i, [], next_virtual_reg_id)
        == UseTurns(sp, Rewriting([], instr, [], old(next_virtual_reg_id)), uses)
    {
      loads, i := [], instr;
      for k := 0 to |uses|
        invariant Rewriting(loads, i, [], next_virtual_reg_id)
          == UseTurns(sp, Rewriting([], instr, [], old(next_virtual_reg_id)), uses[..k])
      {
        assert uses[..k + 1][..k] == uses[..k];
        if uses[k] in sp.offset {
          var vreg := Virt(uses[k].ty, next_virtual_reg_id);
          i := ReplaceUse(i, uses[k], vreg);
          loads := loads + LoadSlot(sp, uses[k], vreg, next_virtual_reg_id + 1);
          next_virtual_reg_id := AfterSlot(sp, uses[k], next_virtual_reg_id + 1);
        }
      }
      assert uses[..|uses|] == uses;
    }

    /** Stores behind instr, for the registers in defs. */
    method StoreDefs(sp: Spills, ghost loads: Block, instr: Instr, defs: seq<Reg>) returns (i: Instr, stores: Block)
      modifies this`next_virtual_reg_id
      ensures Rewriting(loads, i, stores, next_virtual_reg_id)
        == DefTurns(sp, Rewriting(loads, instr, [], old(next_virtual_reg_id)), defs)
    {
      i, stores := instr, [];
      for k := 0 to |defs|
        invariant Rewriting(loads, i, stores, next_virtual_reg_id)
          == DefTurns(sp, Rewriting(loads, instr, [], old(next_virtual_reg_id)), defs[..k])
      {
        assert defs[..k + 1][..k] == defs[..k];
        if defs[k] in sp.offset {
          var vreg := Virt(defs[k].ty, next_virtual_reg_id);
          i := ReplaceDef(i, defs[k], vreg);
          stores := StoreSlot(sp, defs[k], vreg, next_virtual_reg_id + 1) + stores;
          next_virtual_reg_id := AfterSlot(sp, defs[k], next_virtual_reg_id + 1);
        }
      }
      assert defs[..|defs|] == defs;
    }

    method RewriteInstr(sp: Spills, instr: Instr) returns (b: Block)
      requires WellFormed(instr)
      modifies this`next_virtual_reg_id
      ensures b == SpillInstr(sp, instr, old(next_virtual_reg_id))
      ensures next_virtual_reg_id == Rewritten(sp, instr, old(next_virtual_reg_id)).next
    {
      var loads, i := LoadUses(sp, instr, UseList(instr));
      var j, stores := StoreDefs(sp, loads, i, Defs(instr));
      b := loads + [j] + stores;
    }

    method RewriteBlock(sp: Spills, l: nat)
      requires l in code && WellFormedBlock(code[l])
      modifies this`code, this`next_virtual_reg_id
      ensures code == old(code)[l := SpillBlock(sp, old(code)[l], old(next_virtual_reg_id))]
      ensures next_virtual_reg_id == AfterBlock(sp, old(code)[l], old(next_virtual_reg_id))
    {
      var b, instrs := code[l], [];
      for k := 0 to |b|
        invariant WellFormedBlock(b[..k]) && code == old(code)
        invariant instrs == SpillBlock(sp, b[..k], old(next_virtual_reg_id))
        invariant next_virtual_reg_id == AfterBlock(sp, b[..k], old(next_virtual_reg_id))
      {
        SpillPrefix(sp, b, k, old(next_virtual_reg_id));
        var c := RewriteInstr(sp, b[k]);
        instrs := instrs + c;
      }
      assert b[..|b|] == b;
      code := code[l := instrs];
    }

    /** Gives every spilled register a slot of its own. */
    method AllocateSlots(spilled_nodes: set<Reg>)
      requires frame_scheduler.Valid()
      modifies frame_scheduler
      ensures frame_scheduler.Valid()
      ensures frame_scheduler.reg_map.Keys == old(frame_scheduler.reg_map).Keys + spilled_nodes
      ensures forall r :: r in old(frame_scheduler.reg_map) && r !in spilled_nodes ==>
        frame_scheduler.reg_map[r] == old(frame_scheduler.reg_map)[r]
      ensures frame_scheduler.alloca_map == old(frame_scheduler.alloca_map) &&
        frame_scheduler.size == old(frame_scheduler.size)
      ensures frame_scheduler.frame_size >= old(frame_scheduler.frame_size)
    {
      var rest := spilled_nodes;
      while rest != {}
        invariant frame_scheduler.Valid() && rest <= spilled_nodes
        invariant frame_scheduler.reg_map.Keys == old(frame_scheduler.reg_map).Keys + (spilled_nodes - rest)
        invariant forall r :: r in old(frame_scheduler.reg_map) && r !in spilled_nodes ==>
          frame_scheduler.reg_map[r] == old(frame_scheduler.reg_map)[r]
        invariant frame_scheduler.alloca_map == old(frame_scheduler.alloca_map) &&
          frame_scheduler.size == old(frame_scheduler.size)
        invariant frame_scheduler.frame_size >= old(frame_scheduler.frame_size)
        decreases rest
      {
        var reg :| reg in rest;
        rest := rest - {reg};
        frame_scheduler.InsertReg(reg);
      }
    }

    method RewriteNext(sp: Spills, blocks: seq<nat>, k: nat, ghost p: Program, ghost n: nat)
      requires k < |blocks| && blocks[k] !in blocks[..k] && blocks[k] in p
      requires SpillsSome(sp, p, code, n, next_virtual_reg_id, blocks[..k])
      modifies this`code, this`next_virtual_reg_id
      ensures SpillsSome(sp, p, code, n, next_virtual_reg_id, blocks[..k + 1])
    {
      assert blocks[..k + 1] == blocks[..k] + [blocks[k]];
      var block := blocks[k];
      ghost var q, m := code, next_virtual_reg_id;
      assert q[block] == p[block];
      RewriteBlock(sp, block);
      OneMoreSpilled(sp, p, q, n, blocks[..k], block, m);
    }

    method RewriteBlocks(sp: Spills, blocks: seq<nat>)
      requires WellFormedProgram(code)
      requires (forall l :: l in blocks <==> l in code) && forall k :: 0 <= k < |blocks| ==> blocks[k] !in blocks[..k]
      modifies this`code, this`next_virtual_reg_id
      ensures SpillsTo(sp, old(code), code, old(next_virtual_reg_id))
      ensures SpillableProgram(old(code), old(next_virtual_reg_id)) ==> SpillableProgram(code, next_virtual_reg_id)
      ensures next_virtual_reg_id >= old(next_virtual_reg_id)
    {
      ghost var p, n := code, next_virtual_reg_id;
      for k := 0 to |blocks|
        invariant SpillsSome(sp, p, code, n, next_virtual_reg_id, blocks[..k])
      {
        assert blocks[k] in blocks;
        RewriteNext(sp, blocks, k, p, n);
      }
      assert blocks[..|blocks|] == blocks;
      SpilledAgain(sp, p, code, n, next_virtual_reg_id, blocks);
    }

    /** Afterwards the function is rewritten as `SpillPreservesRuns` demands. */
    method RewriteProgram(blocks: seq<nat>, spilled_nodes: set<Reg>, viaSp: set<Reg>) returns (sp: Spills)
      requires frame_scheduler.Valid() && WellFormedProgram(code)
      requires forall r :: r in spilled_nodes ==> r.Virt? && r.ty != FloatCmp
      requires (forall l :: l in blocks <==> l in code) && forall k :: 0 <= k < |blocks| ==> blocks[k] !in blocks[..k]
      modifies this, frame_scheduler
      ensures frame_scheduler.Valid()
      ensures frame_scheduler.reg_map.Keys == old(frame_scheduler.reg_map).Keys + spilled_nodes
      ensures sp == SpillsOf(frame_scheduler.reg_map, spilled_nodes, viaSp)
      ensures sp.offset.Keys == spilled_nodes && sp.viaSp == viaSp
      ensures Int32(frame_scheduler.frame_size) ==>
        SpillsOk(sp) &&
        SlotsInFrame(sp, frame_scheduler.frame_size, frame_scheduler.alloca_map, frame_scheduler.size)
      ensures SpillsTo(sp, old(code), code, old(next_virtual_reg_id))
      ensures SpillsOk(sp) && CheckedProgram(old(code)) ==> CheckedProgram(code)
      ensures SpillableProgram(old(code), old(next_virtual_reg_id)) ==> SpillableProgram(code, next_virtual_reg_id)
      ensures next_virtual_reg_id >= old(next_virtual_reg_id)
    {
      ghost var p, n := code, next_virtual_reg_id;
      AllocateSlots(spilled_nodes);
      sp := SpillsOf(frame_scheduler.reg_map, spilled_nodes, viaSp);
      if Int32(frame_scheduler.frame_size) {
        SlotsOk(frame_scheduler.frame_size, frame_scheduler.alloca_map, frame_scheduler.size, frame_scheduler.reg_map,
                spilled_nodes, viaSp);
      }
      RewriteBlocks(sp, blocks);
      if SpillsOk(sp) && CheckedProgram(p) {
        RewrittenChecked(sp, p, code, n);
      }
    }
  }
}
