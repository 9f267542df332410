// The pass itself: phis are placed, then the dominator tree is walked with a stack of
// definitions for every variable.

module Mem2Reg {
  import opened FlowGraph
  import opened DomTree
  import opened PhiPlacement
  import opened Ssa
  import opened Renaming
  import opened MemoryToSsa
  import opened DefinitionStacks
  import opened PhiSites

  class Mem2Reg {
    const f: Func
    const dom_tree_succ: map<nat, set<nat>>
    var phi_map_: map<nat, set<nat>>
    var var_stack_: Stacks
    var replaced: map<nat, Operand>
    var phi_args: map<(nat, nat, nat), Operand>

    constructor (f: Func, succ: map<nat, set<nat>>)
      ensures this.f == f && dom_tree_succ == succ
      ensures phi_map_ == map[] && var_stack_ == map[] && replaced == map[] && phi_args == map[]
    {
      this.f, dom_tree_succ := f, succ;
      phi_map_, var_stack_, replaced, phi_args := map[], map[], map[], map[];
    }

    /** Afterwards every variable has its phis. */
    method GeneratePhis(df: Frontier, allocas: map<nat, nat>, stores: map<nat, seq<nat>>)
      requires OverBlocks(df) && stores.Keys == allocas.Keys
      requires forall v :: v in allocas ==> allocas[v] in df && forall b :: b in stores[v] ==> b in df
      modifies this`phi_map_
      ensures phi_map_.Keys == allocas.Keys && forall v :: v in allocas ==>
        SitesOf(df, stores[v], allocas[v], phi_map_[v])
    {
      phi_map_ := map[];
      var rest := allocas.Keys;
      while rest != {}
        invariant rest <= allocas.Keys && phi_map_.Keys == allocas.Keys - rest
        invariant forall v :: v in phi_map_ ==> SitesOf(df, stores[v], allocas[v], phi_map_[v])
        decreases rest
      {
        var inst :| inst in rest;
        var insert_pos := GeneratePhi(df, stores[inst], allocas[inst]);
        phi_map_ := phi_map_[inst := insert_pos];
        rest := rest - {inst};
      }
    }

    method PushPhis(bb: nat, ghost c: Ctx)
      requires c.phi == phi_map_ && Ready(c, bb, var_stack_, replaced, phi_args)
      modifies this`var_stack_
      ensures AtInstr(c, bb, 0, old(var_stack_), var_stack_, replaced, replaced)
    {
      var phis := set v | v in phi_map_ && bb in phi_map_[v];
      var rest := phis;
      PhisBegin(c, bb, phis, var_stack_);
      while rest != {}
        invariant replaced == old(replaced) && AtPhi(c, bb, phis, rest, old(var_stack_), var_stack_)
        decreases rest
      {
        var lval :| lval in rest;
        PhiMoves(c, bb, phis, rest, old(var_stack_), var_stack_, lval, Push(var_stack_, lval, Ref(Phi(bb, lval))));
        var_stack_ := Push(var_stack_, lval, Ref(Phi(bb, lval)));
        rest := rest - {lval};
      }
      PhisEnd(c, bb, phis, old(var_stack_), var_stack_, replaced, old(phi_args));
    }

    method RenameInstr(bb: nat, k: nat, ghost c: Ctx, ghost m0: Stacks, ghost r0: map<nat, Operand>)
      requires WellFormed(c) && bb in c.f.g.blocks && c.f == f && k < |Code(c, bb)|
      requires AtInstr(c, bb, k, m0, var_stack_, r0, replaced)
      modifies this`var_stack_, this`replaced
      ensures AtInstr(c, bb, k + 1, m0, var_stack_, r0, replaced)
    {
      var inst := f.body[bb][k];
      if inst.Load? {
        if Top(var_stack_, inst.v).Some? {
          replaced := replaced[inst.dst := Top(var_stack_, inst.v).value];
        }
      } else if inst.Store? {
        var_stack_ := Push(var_stack_, inst.v, Subs(replaced, inst.op));
      }
      InstrMoves(c, bb, k, m0, old(var_stack_), r0, old(replaced), inst, var_stack_, replaced);
    }

    method RenameInstrs(bb: nat, ghost c: Ctx, ghost m0: Stacks)
      requires WellFormed(c) && bb in c.f.g.blocks && c.f == f
      requires AtInstr(c, bb, 0, m0, var_stack_, replaced, replaced)
      modifies this`var_stack_, this`replaced
      ensures AtInstr(c, bb, |Code(c, bb)|, m0, var_stack_, old(replaced), replaced)
    {
      for k := 0 to |f.body[bb]|
        invariant AtInstr(c, bb, k, m0, var_stack_, old(replaced), replaced)
      {
        RenameInstr(bb, k, c, m0, old(replaced));
      }
    }

    /** Every phi of succ gets the definition on top of the stack of its variable. */
    method FillPhis(bb: nat, succ: nat, ghost c: Ctx)
      requires bb in c.t.up && bb in c.f.g.succ && c.phi == phi_map_ && Tops(c, bb, |Code(c, bb)|, var_stack_)
      requires ArgsSound(c, phi_args, bb)
      modifies this`phi_args
      ensures ArgsSound(c, phi_args, bb) && ArgsFilled(c, phi_args, bb, succ, {})
      ensures ArgsOnlyFrom({bb}, old(phi_args), phi_args) && ArgsGrow(old(phi_args), phi_args)
    {
      var rest := set v | v in phi_map_ && succ in phi_map_[v];
      while rest != {}
        invariant ArgsSound(c, phi_args, bb) && ArgsFilled(c, phi_args, bb, succ, rest)
        invariant ArgsOnlyFrom({bb}, old(phi_args), phi_args) && ArgsGrow(old(phi_args), phi_args)
        decreases rest
      {
        var lval :| lval in rest;
        ghost var args := phi_args;
        assert Top(var_stack_, lval) == PhiArg(c, bb, lval);
        if Top(var_stack_, lval).Some? {
          phi_args := phi_args[(bb, succ, lval) := Top(var_stack_, lval).value];
        }
        ArgAdded(c, old(phi_args), args, bb, succ, rest, lval, phi_args);
        rest := rest - {lval};
      }
    }

    method FillSuccessors(bb: nat, ghost c: Ctx)
      requires bb in c.t.up && bb in c.f.g.succ && c.f == f && c.phi == phi_map_ &&
        Tops(c, bb, |Code(c, bb)|, var_stack_)
      requires NoArgsFrom({bb}, phi_args)
      modifies this`phi_args
      ensures ArgsDone(c, phi_args, bb) && ArgsOnlyFrom({bb}, old(phi_args), phi_args)
    {
      var succs := f.g.succ[bb];
      for k := 0 to |succs|
        invariant ArgsSound(c, phi_args, bb) && ArgsOnlyFrom({bb}, old(phi_args), phi_args)
        invariant forall j :: 0 <= j < k ==> ArgsFilled(c, phi_args, bb, succs[j], {})
      {
        ghost var args := phi_args;
        FillPhis(bb, succs[k], c);
        forall j | 0 <= j < k
          ensures ArgsFilled(c, phi_args, bb, succs[j], {})
        {
          FilledGrows(c, args, phi_args, bb, succs[j]);
        }
        ArgsOnlyFromTwice({bb}, {bb}, old(phi_args), args, phi_args);
      }
      FilledIsDone(c, phi_args, bb);
    }

    /** Takes what bb has pushed off the stacks again. */
    method PopDefinitions(bb: nat, ghost c: Ctx, ghost m0: Stacks)
      requires bb in f.body && c.f == f && c.phi == phi_map_ && Grown(m0, var_stack_, Pushes(c, bb, |Code(c, bb)|))
      modifies this`var_stack_
      ensures SameStacks(m0, var_stack_)
    {
      var code := f.body[bb];
      var rest := set v | v in phi_map_ && bb in phi_map_[v];
      PopsAreThePushes(c, bb, m0, var_stack_, rest);
      while rest != {}
        invariant Grown(m0, var_stack_, ToPop(code, rest, 0))
        decreases rest
      {
        var lval :| lval in rest;
        PopPhi(code, rest, m0, var_stack_, lval);
        var_stack_ := Pop(var_stack_, lval);
        rest := rest - {lval};
      }
      for k := 0 to |code|
        invariant Grown(m0, var_stack_, ToPop(code, {}, k))
      {
        PopStore(code, k, m0, var_stack_);
        if code[k].Store? {
          var_stack_ := Pop(var_stack_, code[k].v);
        }
      }
      NothingToPop(code, m0, var_stack_);
    }

    /** Renames bb and everything below it in the dominator tree, and leaves the stacks as they were. */
    method Rename(bb: nat, ghost c: Ctx)
      requires c.f == f && c.phi == phi_map_ && Ready(c, bb, var_stack_, replaced, phi_args) &&
        Children(f.g, c.t, dom_tree_succ)
      modifies this`var_stack_, this`replaced, this`phi_args
      ensures SameStacks(old(var_stack_), var_stack_)
      ensures Renamed(c, Below(f.g, c.t, bb), old(replaced), replaced, old(phi_args), phi_args)
      decreases Num(c.t, bb), 2
    {
      ghost var m0, r0, a0 := var_stack_, replaced, phi_args;
      RenameBlock(bb, c);
      ghost var m1 := var_stack_;
      RenameChildren(bb, c, m0, m1, r0, a0);
      GrownThenSame(m0, m1, var_stack_, Pushes(c, bb, |Code(c, bb)|));
      PopDefinitions(bb, c, m0);
    }

    /** All children of bb, and what is below them. */
    method RenameChildren(bb: nat, ghost c: Ctx, ghost m0: Stacks, ghost m1: Stacks, ghost r0: map<nat, Operand>,
                          ghost a0: Args)
      requires c.f == f && c.phi == phi_map_ && Children(f.g, c.t, dom_tree_succ) && Ready(c, bb, m0, r0, a0)
      requires Tops(c, bb, |Code(c, bb)|, m1) && SameStacks(m1, var_stack_) &&
        Renamed(c, {bb}, r0, replaced, a0, phi_args)
      modifies this`var_stack_, this`replaced, this`phi_args
      ensures SameStacks(m1, var_stack_) && Renamed(c, Below(f.g, c.t, bb), r0, replaced, a0, phi_args)
      decreases Num(c.t, bb), 1
    {
      var rest := dom_tree_succ[bb];
      ghost var seen: set<nat> := {};
      assert {bb} + seen == {bb};
      while rest != {}
        invariant phi_map_ == old(phi_map_) && Sweeping(f.g, c.t, bb, rest, seen)
        invariant SameStacks(m1, var_stack_)
        invariant Renamed(c, {bb} + seen, r0, replaced, a0, phi_args)
        decreases rest
      {
        var succ :| succ in rest;
        RenameChild(bb, succ, c, rest, seen, m0, m1, r0, a0);
        rest := rest - {succ};
        seen := seen + Below(f.g, c.t, succ);
      }
      SweepEnds(f.g, c.t, bb, seen);
      assert {bb} + seen == Below(f.g, c.t, bb);
    }

    /** One more child of bb, and what is below it. */
    method RenameChild(bb: nat, succ: nat, ghost c: Ctx, ghost rest: set<nat>, ghost seen: set<nat>,
                       ghost m0: Stacks, ghost m1: Stacks, ghost r0: map<nat, Operand>, ghost a0: Args)
      requires c.f == f && c.phi == phi_map_ && Children(f.g, c.t, dom_tree_succ) && Ready(c, bb, m0, r0, a0)
      requires Sweeping(f.g, c.t, bb, rest, seen) && succ in rest && Tops(c, bb, |Code(c, bb)|, m1)
      requires SameStacks(m1, var_stack_) && Renamed(c, {bb} + seen, r0, replaced, a0, phi_args)
      modifies this`var_stack_, this`replaced, this`phi_args
      ensures Sweeping(f.g, c.t, bb, rest - {succ}, seen + Below(f.g, c.t, succ))
      ensures SameStacks(m1, var_stack_)
      ensures Renamed(c, {bb} + (seen + Below(f.g, c.t, succ)), r0, replaced, a0, phi_args)
      decreases Num(c.t, bb), 0
    {
      ghost var m, r, a := var_stack_, replaced, phi_args;
      NextChild(c, bb, succ, rest, seen, m0, m1, m, r0, r, a0, a);
      Rename(succ, c);
      ChildRenamed(c, bb, succ, seen, m1, m, var_stack_, r0, r, replaced, a0, a, phi_args);
    }

    method RenameBlock(bb: nat, ghost c: Ctx)
      requires c.f == f && c.phi == phi_map_ && Ready(c, bb, var_stack_, replaced, phi_args)
      modifies this`var_stack_, this`replaced, this`phi_args
      ensures Tops(c, bb, |Code(c, bb)|, var_stack_)
      ensures Grown(old(var_stack_), var_stack_, Pushes(c, bb, |Code(c, bb)|))
      ensures Renamed(c, {bb}, old(replaced), replaced, old(phi_args), phi_args)
    {
      BlockReady(c, bb, var_stack_, replaced, phi_args);
      PushPhis(bb, c);
      RenameInstrs(bb, c, old(var_stack_));
      FillSuccessors(bb, c);
      BlockRenamed(c, bb, old(var_stack_), var_stack_, old(replaced), replaced, old(phi_args), phi_args);
    }

    /** The function that is left when loads and stores have been cleared away. */
    method Finish(ghost c: Ctx) returns (q: SsaFunc)
      requires c.f == f && c.phi == phi_map_ && WellFormed(c) &&
        Renamed(c, c.f.g.blocks, map[], replaced, map[], phi_args)
      ensures IsResult(c, q)
    {
      q := SsaFunc(ClearedFunc(f, replaced), PhisIn(f.g, phi_map_), phi_args);
      ClearedIsResult(c, replaced, q);
    }
  }
}
