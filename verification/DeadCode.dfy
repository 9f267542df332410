// The pass over a module that removes instructions nobody needs: what is needed is found with a
// work list, starting from critical instructions.

module DeadCode {
  import Purity
  import opened LiveCode

  // ----- what is needed -----

  predicate InBlock(f: Func, b: nat, x: nat) { b in f.blocks && x in f.blocks[b] }

  /** An instruction that does something by itself: a store, a branch, a return, or a call of a
      function that is not pure. */
  predicate Acts(pure: set<nat>, i: Instr) {
    i.kind.StoreK? || i.kind.BranchK? || i.kind.ReturnK? || (i.kind.CallK? && i.kind.callee !in pure)
  }

  /** x stands in a block, and has to stay for its own sake. */
  ghost predicate Root(f: Func, pure: set<nat>, x: nat) {
    x in f.instrs && Acts(pure, f.instrs[x]) && exists b :: InBlock(f, b, x)
  }

  predicate UsesNext(f: Func, p: seq<nat>, i: nat)
    requires i + 1 < |p|
  {
    UsesValue(f, p[i], p[i + 1])
  }

  /** A chain of uses, from an instruction that acts to x. */
  ghost predicate UseChain(f: Func, pure: set<nat>, p: seq<nat>, x: nat) {
    && |p| > 0 && Root(f, pure, p[0]) && p[|p| - 1] == x
    && forall i :: 0 <= i < |p| - 1 ==> UsesNext(f, p, i)
  }

  ghost predicate Needed(f: Func, pure: set<nat>, x: nat) { exists p :: UseChain(f, pure, p, x) }

  lemma RootIsNeeded(f: Func, pure: set<nat>, x: nat)
    requires Root(f, pure, x)
    ensures Needed(f, pure, x)
  {
    assert UseChain(f, pure, [x], x);
  }

  lemma OperandIsNeeded(f: Func, pure: set<nat>, x: nat, y: nat)
    requires Needed(f, pure, x) && UsesValue(f, x, y)
    ensures Needed(f, pure, y)
  {
    var p :| UseChain(f, pure, p, x);
    var q := p + [y];
    forall i | 0 <= i < |q| - 1
      ensures UsesNext(f, q, i)
    {
      if i < |p| - 1 {
        assert UsesNext(f, p, i);
      }
    }
    assert UseChain(f, pure, q, y);
  }

  /** What holds of critical instructions, and passes to operands, holds of all that is needed. */
  lemma {:induction false} NeededIsReached(f: Func, pure: set<nat>, marked: set<nat>, p: seq<nat>, x: nat)
    requires UseChain(f, pure, p, x) && Closed(f, marked) && forall r :: Root(f, pure, r) ==> r in marked
    ensures x in marked
    decreases |p|
  {
    if |p| > 1 {
      var q, k := p[..|p| - 1], |p| - 2;
      forall i | 0 <= i < |q| - 1
        ensures UsesNext(f, q, i)
      {
        assert UsesNext(f, p, i);
      }
      NeededIsReached(f, pure, marked, q, p[k]);
      assert UsesNext(f, p, k);
    }
  }

  /** Exactly what is needed has been marked. */
  ghost predicate Exactly(f: Func, pure: set<nat>, marked: set<nat>) {
    forall x :: x in marked <==> Needed(f, pure, x)
  }

  lemma ExactlyIsClosed(f: Func, pure: set<nat>, marked: set<nat>)
    requires Complete(f) && Exactly(f, pure, marked)
    ensures Closed(f, marked) && AllCriticalMarked(f, pure, marked)
  {
    forall x, y {:trigger UsesValue(f, x, y)} | x in marked && UsesValue(f, x, y)
      ensures y in marked
    {
      OperandIsNeeded(f, pure, x, y);
    }
    forall b, x | b in f.blocks && x in f.blocks[b] && IsCritical(pure, f.instrs[x])
      ensures x in marked
    {
      assert InBlock(f, b, x);
      RootIsNeeded(f, pure, x);
    }
  }

  // ----- marking -----

  /** Between two turns: what marked instructions use is marked too, or they are on the work list. */
  ghost predicate Marking(f: Func, pure: set<nat>, marked: set<nat>, work: seq<nat>) {
    && (forall x :: x in marked ==> x in f.instrs && Needed(f, pure, x))
    && (forall x :: x in work ==> x in marked)
    && forall x, y {:trigger UsesValue(f, x, y)} :: x in marked && x !in work && UsesValue(f, x, y) ==> y in marked
  }

  lemma MarkingEnds(f: Func, pure: set<nat>, marked: set<nat>)
    requires Marking(f, pure, marked, []) && forall r :: Root(f, pure, r) ==> r in marked
    ensures Exactly(f, pure, marked)
  {
    forall x | Needed(f, pure, x)
      ensures x in marked
    {
      var p :| UseChain(f, pure, p, x);
      NeededIsReached(f, pure, marked, p, x);
    }
  }

  lemma MarkRoot(f: Func, pure: set<nat>, marked: set<nat>, work: seq<nat>, x: nat)
    requires Marking(f, pure, marked, work) && Root(f, pure, x)
    ensures Marking(f, pure, marked + {x}, work + [x])
  {
    RootIsNeeded(f, pure, x);
    assert forall y :: y in work + [x] <==> y in work || y == x;
  }

  lemma MarkOperand(f: Func, pure: set<nat>, marked: set<nat>, work: seq<nat>, x: nat, y: nat)
    requires Marking(f, pure, marked, work + [x]) && UsesValue(f, x, y)
    ensures Marking(f, pure, marked + {y}, work + [y] + [x])
  {
    assert x in work + [x];
    OperandIsNeeded(f, pure, x, y);
    assert forall z :: z in work + [y] + [x] <==> z in work + [x] || z == y;
  }

  lemma MarkDone(f: Func, pure: set<nat>, marked: set<nat>, work: seq<nat>, x: nat)
    requires Marking(f, pure, marked, work + [x]) && forall y :: UsesValue(f, x, y) ==> y in marked
    ensures Marking(f, pure, marked, work)
  {
    assert forall z :: z in work + [x] <==> z in work || z == x;
  }

  lemma MarkingRotates(f: Func, pure: set<nat>, marked: set<nat>, work: seq<nat>)
    requires work != [] && Marking(f, pure, marked, work)
    ensures Marking(f, pure, marked, work[1..] + [work[0]])
  {
    assert forall x :: x in work[1..] + [work[0]] <==> x in work;
  }

  lemma FewerUnmarked(all: set<nat>, marked: set<nat>, x: nat)
    requires x in all && x !in marked
    ensures |all - (marked + {x})| < |all - marked|
  {
    assert all - marked == (all - (marked + {x})) + {x};
  }

  /** How much there is left to do: an instruction that is marked adds one to the work list. */
  function Weight(f: Func, marked: set<nat>, work: seq<nat>): nat { 2 * |f.instrs.Keys - marked| + |work| }

  lemma UsedValue(f: Func, x: nat, k: nat)
    requires x in f.instrs && k < |f.instrs[x].args| && f.instrs[x].args[k].Ref? && f.instrs[x].args[k].id in f.instrs
    ensures UsesValue(f, x, f.instrs[x].args[k].id)
  {
    assert f.instrs[x].args[k] in f.instrs[x].args;
  }

  // ----- one function, cleaned -----

  /** Nothing is left to remove. */
  ghost predicate Clean(f: Func, pure: set<nat>) {
    && (forall b :: b in f.blocks && b in f.pred && f.pred[b] == [] ==> b == f.entry)
    && forall b, x {:trigger InBlock(f, b, x)} :: InBlock(f, b, x) ==> Needed(f, pure, x)
  }

  /** From f to g: the same runs, and less if anything has changed. */
  ghost predicate Cleaned(m: Purity.Module, f: Func, g: Func, changed: bool) {
    Complete(g) && SameRuns(m, f, g) && if changed then |Places(g)| < |Places(f)| else g == f
  }

  lemma CleanedTwice(m: Purity.Module, f: Func, g: Func, h: Func, c: bool, d: bool)
    requires Cleaned(m, f, g, c) && Cleaned(m, g, h, d)
    ensures Cleaned(m, f, h, c || d)
  {
    SameRunsTransitive(m, f, g, h);
  }

  lemma StillUnreached(f: Func, b: nat, d: nat)
    requires IsUnreached(f, b) && b != d
    ensures IsUnreached(Without(f, d), b)
  {
  }

  lemma OneBlockLess(m: Purity.Module, f: Func, b: nat)
    requires Complete(f) && IsUnreached(f, b)
    ensures Cleaned(m, f, Without(f, b), true)
  {
    WithoutIsComplete(f, b);
    WithoutSameRuns(m, f, b);
    WithoutIsSmaller(f, b);
  }

  lemma SweptIsCleaned(m: Purity.Module, f: Func, pure: set<nat>, marked: set<nat>, g: Func, changed: bool)
    requires PureIn(m, pure) && Complete(f) && Exactly(f, pure, marked) && g == Swept(f, marked)
    requires changed <==> exists b :: Shortened(f, marked, b)
    ensures Cleaned(m, f, g, changed)
    ensures !changed ==> forall b, x {:trigger InBlock(f, b, x)} :: InBlock(f, b, x) ==> Needed(f, pure, x)
  {
    ExactlyIsClosed(f, pure, marked);
    SweepSameRuns(m, f, pure, marked);
    SweptIsComplete(f, marked);
    if changed {
      var b :| Shortened(f, marked, b);
      SweptIsSmaller(f, marked, b);
    } else {
      NothingSwept(f, marked);
      forall b, x {:trigger InBlock(f, b, x)} | InBlock(f, b, x)
        ensures Needed(f, pure, x)
      {
        SweptMember(f, marked, b, x);
      }
    }
  }

  predicate Shortened(f: Func, marked: set<nat>, b: nat) {
    b in f.blocks && |Kept(f.blocks[b], marked)| < |f.blocks[b]|
  }

  lemma NothingSwept(f: Func, marked: set<nat>)
    requires forall b :: !Shortened(f, marked, b)
    ensures Swept(f, marked) == f
  {
    forall b | b in f.blocks
      ensures Kept(f.blocks[b], marked) == f.blocks[b]
    {
      assert !Shortened(f, marked, b);
      KeptIsShorter(f.blocks[b], marked);
      KeptIsAll(f.blocks[b], marked);
    }
    assert Swept(f, marked).blocks == f.blocks;
  }

  lemma {:induction false} KeptOneMore(code: seq<nat>, marked: set<nat>, x: nat)
    ensures Kept(code + [x], marked) == Kept(code, marked) + (if x in marked then [x] else [])
    decreases |code|
  {
    if code == [] {
      assert [x][1..] == [];
    } else {
      assert (code + [x])[0] == code[0] && (code + [x])[1..] == code[1..] + [x];
      KeptOneMore(code[1..], marked, x);
    }
  }

  // ----- the module -----


  /** How many places there are in the functions listed. */
  function Total(fs: map<nat, Func>, funcs: seq<nat>): nat {
    if funcs == [] then 0
    else Total(fs, funcs[1..]) + (if funcs[0] in fs then |Places(fs[funcs[0]])| else 0)
  }

  lemma {:induction false} TotalFalls(fs: map<nat, Func>, fs': map<nat, Func>, funcs: seq<nat>)
    requires fs'.Keys == fs.Keys && forall k :: k in fs ==> |Places(fs'[k])| <= |Places(fs[k])|
    ensures Total(fs', funcs) <= Total(fs, funcs)
    ensures (exists k :: k in funcs && k in fs && |Places(fs'[k])| < |Places(fs[k])|) ==>
      Total(fs', funcs) < Total(fs, funcs)
    decreases |funcs|
  {
    if funcs != [] {
      TotalFalls(fs, fs', funcs[1..]);
      assert forall k :: k in funcs <==> k == funcs[0] || k in funcs[1..];
    }
  }

  /** The critical instructions in the first k of block b, and in the blocks that are not in rest, are marked. */
  ghost predicate RootsMarked(f: Func, pure: set<nat>, marked: set<nat>, rest: set<nat>, b: nat, k: nat) {
    && (forall c, x {:trigger InBlock(f, c, x)} ::
        InBlock(f, c, x) && c !in rest && c != b && x in f.instrs && IsCritical(pure, f.instrs[x]) ==> x in marked)
    && forall j :: 0 <= j < k && b in f.blocks && j < |f.blocks[b]| ==> CriticalAt(f, pure, f.blocks[b][j]) ==>
      f.blocks[b][j] in marked
  }

  predicate CriticalAt(f: Func, pure: set<nat>, x: nat) { x in f.instrs && IsCritical(pure, f.instrs[x]) }

  lemma BlockDone(f: Func, pure: set<nat>, marked: set<nat>, rest: set<nat>, b: nat)
    requires b in f.blocks && RootsMarked(f, pure, marked, rest, b, |f.blocks[b]|)
    ensures forall c, x {:trigger InBlock(f, c, x)} ::
      InBlock(f, c, x) && c !in rest - {b} && CriticalAt(f, pure, x) ==> x in marked
  {
    forall c, x {:trigger InBlock(f, c, x)} | InBlock(f, c, x) && c !in rest - {b} && CriticalAt(f, pure, x)
      ensures x in marked
    {
      if c == b {
        var j :| 0 <= j < |f.blocks[b]| && f.blocks[b][j] == x;
        assert CriticalAt(f, pure, f.blocks[b][j]);
      }
    }
  }

  lemma TakeOneMore(s: seq<nat>, k: nat)
    requires k < |s|
    ensures s[..k + 1] == s[..k] + [s[k]] && s[k] in s
  {
  }

  lemma TakeAll(s: seq<nat>)
    ensures s[..|s|] == s
  {
  }

  predicate Less(fs0: map<nat, Func>, fs: map<nat, Func>, k: nat) {
    k in fs0 && k in fs && |Places(fs[k])| < |Places(fs0[k])|
  }

  ghost predicate RoundedAt(m: Purity.Module, f: Func, g: Func) {
    Complete(g) && SameRuns(m, f, g) && |Places(g)| <= |Places(f)|
  }

  /** The functions in fs are those in fs0, of which the ones in `done` have been cleaned once. */
  ghost predicate Rounded(m: Purity.Module, fs0: map<nat, Func>, fs: map<nat, Func>, done: seq<nat>, pure: set<nat>,
                          changed: bool) {
    && AllRounded(m, fs0, fs)
    && (changed ==> exists k :: k in done && Less(fs0, fs, k))
    && (!changed ==> AllClean(fs, done, pure))
  }

  ghost predicate AllClean(fs: map<nat, Func>, done: seq<nat>, pure: set<nat>) {
    forall k {:trigger k in done} :: k in done && k in fs ==> Clean(fs[k], pure)
  }

  lemma RoundBegins(m: Purity.Module, fs: map<nat, Func>, pure: set<nat>)
    requires forall k :: k in fs ==> Complete(fs[k])
    ensures Rounded(m, fs, fs, [], pure, false)
  {
    forall k {:trigger fs[k]} | k in fs
      ensures RoundedAt(m, fs[k], fs[k])
    {
      SameRunsReflexive(m, fs[k]);
    }
  }

  lemma RoundedOn(m: Purity.Module, f: Func, g: Func, h: Func, c: bool)
    requires RoundedAt(m, f, g) && Cleaned(m, g, h, c)
    ensures RoundedAt(m, f, h) && (c ==> |Places(h)| < |Places(f)|) && |Places(h)| <= |Places(g)|
  {
    SameRunsTransitive(m, f, g, h);
  }

  lemma LessStays(fs0: map<nat, Func>, fs: map<nat, Func>, done: seq<nat>, k: nat, g: Func, changed: bool, c: bool)
    requires changed ==> exists j :: j in done && Less(fs0, fs, j)
    requires k in fs && k in fs0 && |Places(g)| <= |Places(fs[k])| && (c ==> |Places(g)| < |Places(fs0[k])|)
    ensures changed || c ==> exists j :: j in done + [k] && Less(fs0, fs[k := g], j)
  {
    assert forall j :: j in done + [k] <==> j in done || j == k;
    if c {
      assert k in done + [k] && Less(fs0, fs[k := g], k);
    } else if changed {
      var j :| j in done && Less(fs0, fs, j);
      assert j in done + [k] && Less(fs0, fs[k := g], j);
    }
  }

  lemma CleanStays(fs: map<nat, Func>, done: seq<nat>, pure: set<nat>, k: nat, g: Func)
    requires AllClean(fs, done, pure) && k in fs && Clean(g, pure)
    ensures AllClean(fs[k := g], done + [k], pure)
  {
    forall j {:trigger j in done + [k]} | j in done + [k] && j in fs
      ensures Clean(fs[k := g][j], pure)
    {
      assert j in done || j == k;
    }
  }

  ghost predicate AllRounded(m: Purity.Module, fs0: map<nat, Func>, fs: map<nat, Func>) {
    fs.Keys == fs0.Keys && forall k {:trigger fs[k]} :: k in fs ==> RoundedAt(m, fs0[k], fs[k])
  }

  lemma AllRoundedOn(m: Purity.Module, fs0: map<nat, Func>, fs: map<nat, Func>, k: nat, g: Func)
    requires AllRounded(m, fs0, fs) && k in fs && RoundedAt(m, fs0[k], g)
    ensures AllRounded(m, fs0, fs[k := g])
  {
    var fs' := fs[k := g];
    forall j {:trigger fs'[j]} | j in fs'
      ensures RoundedAt(m, fs0[j], fs'[j])
    {
      assert j == k || fs'[j] == fs[j];
    }
  }

  lemma RoundStep(m: Purity.Module, fs0: map<nat, Func>, fs: map<nat, Func>, done: seq<nat>, pure: set<nat>,
                  changed: bool,
                  k: nat, g: Func, c: bool)
    requires Rounded(m, fs0, fs, done, pure, changed) && k in fs && Cleaned(m, fs[k], g, c) && (!c ==> Clean(g, pure))
    ensures Rounded(m, fs0, fs[k := g], done + [k], pure, changed || c)
  {
    RoundedOn(m, fs0[k], fs[k], g, c);
    AllRoundedOn(m, fs0, fs, k, g);
    LessStays(fs0, fs, done, k, g, changed, c);
    if !changed && !c {
      CleanStays(fs, done, pure, k, g);
    }
  }

  /** After a round: fewer places, or nothing left to remove. */
  lemma RoundEnds(m: Purity.Module, fs0: map<nat, Func>, fs1: map<nat, Func>, fs: map<nat, Func>, funcs: seq<nat>,
                  pure: set<nat>, changed: bool)
    requires Rounded(m, fs1, fs, funcs, pure, changed) && (forall k :: k in funcs <==> k in fs1)
    requires fs1.Keys == fs0.Keys && forall k :: k in fs1 ==> SameRuns(m, fs0[k], fs1[k])
    ensures AfterRounds(m, fs0, fs, pure, changed)
    ensures Total(fs, funcs) <= Total(fs1, funcs) && (changed ==> Total(fs, funcs) < Total(fs1, funcs))
  {
    assert forall k :: k in fs1 ==> RoundedAt(m, fs1[k], fs[k]);
    if changed {
      var k :| k in funcs && Less(fs1, fs, k);
    }
    TotalFalls(fs1, fs, funcs);
    forall k | k in fs
      ensures Complete(fs[k]) && SameRuns(m, fs0[k], fs[k])
    {
      assert RoundedAt(m, fs1[k], fs[k]);
      SameRunsTransitive(m, fs0[k], fs1[k], fs[k]);
    }
  }

  ghost predicate PureExactly(m: Purity.Module, pure: set<nat>) {
    forall g :: g in pure <==> g in m && !Purity.Impure(m, g)
  }

  ghost predicate AfterRounds(m: Purity.Module, fs0: map<nat, Func>, fs: map<nat, Func>, pure: set<nat>,
                              changed: bool) {
    && fs.Keys == fs0.Keys
    && (forall k :: k in fs ==> Complete(fs[k]) && SameRuns(m, fs0[k], fs[k]))
    && (!changed ==> forall k :: k in fs ==> Clean(fs[k], pure))
  }

  predicate OperandsMarked(f: Func, marked: set<nat>, args: seq<Operand>, k: nat)
    requires k <= |args|
  {
    forall j :: 0 <= j < k ==> (args[j].Ref? && args[j].id in f.instrs ==> args[j].id in marked)
  }

  lemma OperandsAreUsed(f: Func, marked: set<nat>, x: nat)
    requires x in f.instrs && OperandsMarked(f, marked, f.instrs[x].args, |f.instrs[x].args|)
    ensures forall y :: UsesValue(f, x, y) ==> y in marked
  {
    forall y | UsesValue(f, x, y)
      ensures y in marked
    {
      var j :| 0 <= j < |f.instrs[x].args| && f.instrs[x].args[j] == Ref(y);
    }
  }

  class DeadCode {
    const m: Purity.Module
    var pure: set<nat>
    var fs: map<nat, Func>
    var work_list: seq<nat>
    var marked: set<nat>

    constructor (m: Purity.Module, fs: map<nat, Func>)
      ensures this.m == m && this.fs == fs
    {
      this.m, this.fs := m, fs;
      pure, work_list, marked := {}, [], {};
    }

    /** Marks the critical instructions of one block. */
    method MarkCritical(f: Func, b: nat, ghost rest: set<nat>)
      requires Complete(f) && b in f.blocks && Marking(f, pure, marked, work_list) &&
        RootsMarked(f, pure, marked, rest, b, 0)
      modifies this`work_list, this`marked
      ensures Marking(f, pure, marked, work_list) && RootsMarked(f, pure, marked, rest, b, |f.blocks[b]|)
    {
      var code := f.blocks[b];
      for k := 0 to |code|
        invariant Marking(f, pure, marked, work_list) && RootsMarked(f, pure, marked, rest, b, k)
      {
        var ins := code[k];
        assert InBlock(f, b, ins);
        if IsCritical(pure, f.instrs[ins]) {
          MarkRoot(f, pure, marked, work_list, ins);
          marked := marked + {ins};
          work_list := work_list + [ins];
        }
      }
    }

    /** Marks the operands of ins that are computed by instructions. */
    method MarkOperands(f: Func, ins: nat)
      requires ins in f.instrs && Marking(f, pure, marked, work_list + [ins])
      modifies this`work_list, this`marked
      ensures Marking(f, pure, marked, work_list) && old(marked) <= marked
      ensures Weight(f, marked, work_list) <= old(Weight(f, marked, work_list))
    {
      var args := f.instrs[ins].args;
      for k := 0 to |args|
        invariant Marking(f, pure, marked, work_list + [ins]) && old(marked) <= marked
        invariant Weight(f, marked, work_list) <= old(Weight(f, marked, work_list))
        invariant OperandsMarked(f, marked, args, k)
      {
        MarkOne(f, ins, k);
      }
      OperandsAreUsed(f, marked, ins);
      MarkDone(f, pure, marked, work_list, ins);
    }

    method MarkOne(f: Func, ins: nat, k: nat)
      requires ins in f.instrs && Marking(f, pure, marked, work_list + [ins])
      requires k < |f.instrs[ins].args| && OperandsMarked(f, marked, f.instrs[ins].args, k)
      modifies this`work_list, this`marked
      ensures Marking(f, pure, marked, work_list + [ins]) && old(marked) <= marked
      ensures Weight(f, marked, work_list) <= old(Weight(f, marked, work_list))
      ensures OperandsMarked(f, marked, f.instrs[ins].args, k + 1)
    {
      var op := f.instrs[ins].args[k];
      if op.Ref? && op.id in f.instrs && op.id !in marked {
        UsedValue(f, ins, k);
        MarkOperand(f, pure, marked, work_list, ins, op.id);
        FewerUnmarked(f.instrs.Keys, marked, op.id);
        marked := marked + {op.id};
        work_list := work_list + [op.id];
      }
    }

    /** Afterwards exactly what is needed is marked. */
    method Mark(f: Func)
      requires Complete(f)
      modifies this`work_list, this`marked
      ensures Exactly(f, pure, marked)
    {
      work_list, marked := [], {};
      var rest := f.blocks.Keys;
      while rest != {}
        invariant rest <= f.blocks.Keys && Marking(f, pure, marked, work_list)
        invariant forall c, x {:trigger InBlock(f, c, x)} ::
          InBlock(f, c, x) && c !in rest && CriticalAt(f, pure, x) ==> x in marked
        decreases rest
      {
        var bb :| bb in rest;
        MarkCritical(f, bb, rest);
        BlockDone(f, pure, marked, rest, bb);
        rest := rest - {bb};
      }
      ghost var roots := marked;
      while work_list != []
        invariant Marking(f, pure, marked, work_list) && roots <= marked
        decreases Weight(f, marked, work_list)
      {
        var now := work_list[0];
        MarkingRotates(f, pure, marked, work_list);
        assert now in work_list && now in f.instrs;
        work_list := work_list[1..];
        MarkOperands(f, now);
      }
      MarkingEnds(f, pure, marked);
    }

    /** Removes what is not marked. */
    method Sweep(f: Func) returns (g: Func, changed: bool)
      ensures g == Swept(f, marked) && (changed <==> exists b :: Shortened(f, marked, b))
    {
      changed := false;
      var blocks: map<nat, seq<nat>> := map[];
      var rest := f.blocks.Keys;
      while rest != {}
        invariant rest <= f.blocks.Keys && blocks.Keys == f.blocks.Keys - rest
        invariant forall b :: b in blocks ==> blocks[b] == Kept(f.blocks[b], marked)
        invariant changed <==> exists b :: b !in rest && Shortened(f, marked, b)
        decreases rest
      {
        var bb :| bb in rest;
        var code := KeepMarked(f.blocks[bb]);
        KeptIsShorter(f.blocks[bb], marked);
        changed := changed || |code| < |f.blocks[bb]|;
        assert Shortened(f, marked, bb) <==> |code| < |f.blocks[bb]|;
        blocks := blocks[bb := code];
        rest := rest - {bb};
      }
      g := f.(blocks := blocks);
      assert g.blocks == Swept(f, marked).blocks;
    }

    method KeepMarked(code: seq<nat>) returns (kept: seq<nat>)
      ensures kept == Kept(code, marked)
    {
      kept := [];
      for k := 0 to |code|
        invariant kept == Kept(code[..k], marked)
      {
        assert code[..k + 1] == code[..k] + [code[k]];
        KeptOneMore(code[..k], marked, code[k]);
        if code[k] in marked {
          kept := kept + [code[k]];
        }
      }
      assert code[..|code|] == code;
    }

    /** Removes the blocks that have no predecessors. */
    method ClearBasicBlocks(f: Func) returns (g: Func, changed: bool)
      requires Complete(f)
      ensures Cleaned(m, f, g, changed)
      ensures forall b :: b in g.blocks <==> b in f.blocks && (b == f.entry || f.pred[b] != [])
      ensures forall b :: b in g.blocks ==> g.blocks[b] == f.blocks[b]
      ensures changed <==> g.blocks.Keys != f.blocks.Keys
    {
      var to_erase := set b | b in f.blocks && IsUnreached(f, b);
      ghost var unreached := to_erase;
      changed := to_erase != {};
      g := f;
      SameRunsReflexive(m, f);
      ghost var some := false;
      while to_erase != {}
        invariant Cleaned(m, f, g, some) && (some ==> changed) && (changed <==> unreached != {}) &&
          (some || to_erase == unreached)
        invariant forall b :: b in to_erase ==> IsUnreached(g, b)
        invariant forall b :: b in g.blocks <==> b in f.blocks && (b in unreached ==> b in to_erase)
        invariant forall b :: b in g.blocks ==> g.blocks[b] == f.blocks[b]
        decreases to_erase
      {
        var bb :| bb in to_erase;
        OneBlockLess(m, g, bb);
        CleanedTwice(m, f, g, Without(g, bb), some, true);
        forall b | b in to_erase && b != bb
          ensures IsUnreached(Without(g, bb), b)
        {
          StillUnreached(g, b, bb);
        }
        g := Without(g, bb);
        some := true;
        to_erase := to_erase - {bb};
      }
      assert forall b :: b in f.blocks ==> (IsUnreached(f, b) <==> b in unreached);
    }

    /** One function, once. */
    method Turn(f: Func) returns (g: Func, changed: bool)
      requires PureIn(m, pure) && Complete(f)
      modifies this`work_list, this`marked
      ensures Cleaned(m, f, g, changed) && (!changed ==> Clean(g, pure))
    {
      var h, cleared := ClearBasicBlocks(f);
      Mark(h);
      var swept;
      g, swept := Sweep(h);
      SweptIsCleaned(m, h, pure, marked, g, swept);
      CleanedTwice(m, f, h, g, cleared, swept);
      changed := cleared || swept;
    }

    /** Every function of the list, once. */
    method Round(funcs: seq<nat>) returns (changed: bool)
      requires PureIn(m, pure) && (forall k :: k in fs ==> Complete(fs[k])) && forall k :: k in funcs ==> k in fs
      modifies this`fs, this`work_list, this`marked
      ensures Rounded(m, old(fs), fs, funcs, pure, changed)
    {
      changed := false;
      RoundBegins(m, fs, pure);
      for k := 0 to |funcs|
        invariant Rounded(m, old(fs), fs, funcs[..k], pure, changed)
      {
        var func := funcs[k];
        TakeOneMore(funcs, k);
        var g, c := Turn(fs[func]);
        RoundStep(m, old(fs), fs, funcs[..k], pure, changed, func, g, c);
        fs := fs[func := g];
        changed := changed || c;
      }
      TakeAll(funcs);
    }

    /** The whole pass: afterwards every function runs as before, and nothing is left to remove. */
    method Run(funcs: seq<nat>, users: map<nat, seq<nat>>, order: seq<nat>)
      requires (forall k :: k in fs ==> Complete(fs[k])) && forall k :: k in funcs <==> k in fs
      requires users.Keys == m.Keys && forall f, g {:trigger Purity.Calls(m, g, f)} {:trigger g in users[f]} ::
        f in m ==> (g in users[f] <==> Purity.Calls(m, g, f))
      requires forall f :: f in order <==> f in m
      modifies this
      ensures fs.Keys == old(fs).Keys && forall k :: k in fs ==> SameRuns(m, old(fs)[k], fs[k]) && Clean(fs[k], pure)
      ensures PureExactly(m, pure)
    {
      var func_info := new Purity.FuncInfo(m, users);
      func_info.Run(order);
      pure := set g | g in func_info.is_pure && func_info.is_pure[g];
      forall k | k in fs
        ensures SameRuns(m, fs[k], fs[k])
      {
        SameRunsReflexive(m, fs[k]);
      }
      var changed := true;
      while changed
        invariant AfterRounds(m, old(fs), fs, pure, changed) && PureExactly(m, pure)
        decreases Total(fs, funcs), changed
      {
        ghost var fs1 := fs;
        changed := Round(funcs);
        RoundEnds(m, old(fs), fs1, fs, funcs, pure, changed);
      }
    }
  }
}
