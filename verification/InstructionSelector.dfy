// Instruction selection, as far as phis and branches are concerned: where copies are put while
// other blocks have been selected already, or not yet.

module InstructionSelector {
  import opened PhiCopies

  /** Which copies have been put where: in front of the branch of a block that had not been
      selected, or behind the comparison of one that had. */
  ghost predicate CopiesOk(f: IRFunc, order: nat -> nat, early: Program, late: Program) {
    forall p {:trigger Code(early, p)} {:trigger Code(late, p)} ::
      && CopiesFrom(f, p, Code(early, p)) && CopiesFrom(f, p, Code(late, p))
      && CopiesBefore(order, p, Code(early, p)) && CopiesBehind(order, p, Code(late, p))
  }

  ghost predicate CopiesBefore(order: nat -> nat, p: nat, code: seq<MInstr>) {
    forall m {:trigger m in code} :: m in code ==> m.Copy? && order(m.b) < order(p)
  }

  ghost predicate CopiesBehind(order: nat -> nat, p: nat, code: seq<MInstr>) {
    forall m {:trigger m in code} :: m in code ==> m.Copy? && order(m.b) > order(p)
  }

  /** Operand k of phi i of block b has been copied. */
  ghost predicate ArgCopied(f: IRFunc, order: nat -> nat, early: Program, late: Program, b: nat, i: nat, k: nat)
    requires b in f && i < |f[b].phis| && k < |f[b].phis[i].args|
  {
    var p := f[b].phis[i].args[k].0;
    if order(b) < order(p) then Copied(Code(early, p), b, i) else Copied(Code(late, p), b, i)
  }

  /** The operands of all phis that come before operand k of phi i of the block at position n. */
  ghost predicate CopiedTo(f: IRFunc, order: nat -> nat, early: Program, late: Program, n: nat, i: nat, k: nat) {
    forall b, j, l {:trigger ArgCopied(f, order, early, late, b, j, l)} ::
      b in f && 0 <= j < |f[b].phis| && 0 <= l < |f[b].phis[j].args| && Sooner(order(b), j, l, n, i, k) ==>
        ArgCopied(f, order, early, late, b, j, l)
  }

  predicate Sooner(m: nat, j: nat, l: nat, n: nat, i: nat, k: nat) {
    m < n || (m == n && (j < i || (j == i && l < k)))
  }

  /** The code of the blocks: finished for those before position n, and for the others what has been
      put in so far. */
  ghost predicate Selected(f: IRFunc, order: nat -> nat, n: nat, q: Program, early: Program, late: Program) {
    && q.Keys == f.Keys
    && forall p {:trigger Code(q, p)} :: p in f ==>
      SelectedAt(order(p) < n, f, p, Code(q, p), Code(early, p), Code(late, p))
  }

  ghost predicate SelectedAt(done: bool, f: IRFunc, p: nat, code: seq<MInstr>, early: seq<MInstr>, late: seq<MInstr>) {
    if done then code == Full(f, p, early, late) else code == early && late == []
  }

  function AddTo(q: Program, p: nat, m: MInstr): Program { q[p := Code(q, p) + [m]] }

  lemma CopyAdded(f: IRFunc, order: nat -> nat, early: Program, late: Program, p: nat, m: MInstr, early': Program,
                  late': Program)
    requires CopiesOk(f, order, early, late) && IsCopyFrom(f, p, m) && order(m.b) != order(p)
    requires early' == if order(m.b) < order(p) then AddTo(early, p, m) else early
    requires late' == if order(m.b) < order(p) then late else AddTo(late, p, m)
    ensures CopiesOk(f, order, early', late')
  {
    forall x {:trigger Code(early', x)} {:trigger Code(late', x)}
      ensures CopiesFrom(f, x, Code(early', x)) && CopiesFrom(f, x, Code(late', x))
      ensures CopiesBefore(order, x, Code(early', x)) && CopiesBehind(order, x, Code(late', x))
    {
      assert CopiesFrom(f, x, Code(early, x)) && CopiesFrom(f, x, Code(late, x));
      assert CopiesBefore(order, x, Code(early, x)) && CopiesBehind(order, x, Code(late, x));
      if x == p {
        CopiesSplit(f, p, Code(early, p), m);
        CopiesSplit(f, p, Code(late, p), m);
        assert forall c :: c in Code(early, p) + [m] <==> c in Code(early, p) || c == m;
        assert forall c :: c in Code(late, p) + [m] <==> c in Code(late, p) || c == m;
      }
    }
  }

  lemma ArgStaysCopied(f: IRFunc, order: nat -> nat, early: Program, late: Program, p: nat, m: MInstr,
                       early': Program, late': Program,
                       b: nat, j: nat, l: nat)
    requires b in f && j < |f[b].phis| && l < |f[b].phis[j].args| && m.Copy?
    requires early' == if order(m.b) < order(p) then AddTo(early, p, m) else early
    requires late' == if order(m.b) < order(p) then late else AddTo(late, p, m)
    ensures ArgCopied(f, order, early, late, b, j, l) ==> ArgCopied(f, order, early', late', b, j, l)
    ensures m.b == b && m.i == j && f[b].phis[j].args[l].0 == p ==> ArgCopied(f, order, early', late', b, j, l)
  {
    CopiedOneMore(Code(early, p), m, b, j);
    CopiedOneMore(Code(late, p), m, b, j);
  }

  /** One more operand has been copied. */
  lemma OneMoreCopied(f: IRFunc, order: nat -> nat, early: Program, late: Program, b: nat, i: nat, k: nat, m: MInstr,
                      early': Program, late': Program)
    requires b in f && i < |f[b].phis| && k < |f[b].phis[i].args| && m.Copy? && m.b == b && m.i == i
    requires forall c :: c in f && order(c) == order(b) ==> c == b
    requires var p := f[b].phis[i].args[k].0;
      && early' == (if order(b) < order(p) then AddTo(early, p, m) else early)
      && late' == (if order(b) < order(p) then late else AddTo(late, p, m))
    requires CopiedTo(f, order, early, late, order(b), i, k)
    ensures CopiedTo(f, order, early', late', order(b), i, k + 1)
  {
    var p := f[b].phis[i].args[k].0;
    forall c, j, l {:trigger ArgCopied(f, order, early', late', c, j, l)}
      | c in f && 0 <= j < |f[c].phis| && 0 <= l < |f[c].phis[j].args| && Sooner(order(c), j, l, order(b), i, k + 1)
      ensures ArgCopied(f, order, early', late', c, j, l)
    {
      ArgStaysCopied(f, order, early, late, p, m, early', late', c, j, l);
      if Sooner(order(c), j, l, order(b), i, k) {
        assert ArgCopied(f, order, early, late, c, j, l);
      }
    }
  }

  lemma NextPhi(f: IRFunc, order: nat -> nat, early: Program, late: Program, b: nat, i: nat)
    requires b in f && i < |f[b].phis| && (forall c :: c in f && order(c) == order(b) ==> c == b)
    requires CopiedTo(f, order, early, late, order(b), i, |f[b].phis[i].args|)
    ensures CopiedTo(f, order, early, late, order(b), i + 1, 0)
  {
  }

  lemma NextBlock(f: IRFunc, order: nat -> nat, early: Program, late: Program, b: nat)
    requires b in f && (forall c :: c in f && order(c) == order(b) ==> c == b)
    requires CopiedTo(f, order, early, late, order(b), |f[b].phis|, 0)
    ensures CopiedTo(f, order, early, late, order(b) + 1, 0, 0)
  {
  }

  // ----- where copies are put -----

  /** The first place in front of which copies are put is k. */
  predicate StopsAt(code: seq<MInstr>, k: nat) {
    && k <= |code| && (forall j :: 0 <= j < k ==> !StopsCopies(code[j]))
    && (k < |code| ==> StopsCopies(code[k]))
  }

  lemma StopsOnce(code: seq<MInstr>, k: nat, l: nat)
    requires StopsAt(code, k) && StopsAt(code, l)
    ensures k == l
  {
  }

  lemma StopsInFull(f: IRFunc, p: nat, early: seq<MInstr>, late: seq<MInstr>, k: nat)
    requires NoBranches(early) && NoBranches(late) && StopsAt(Full(f, p, early, late), k)
    ensures var i := Block(f, p); var front := Heads(p, |i.phis|) + Others(i.body) + early + BranchFirst(i.term) + late;
      k == |front| && Full(f, p, early, late)[..k] == front && Full(f, p, early, late)[k..] == BranchLast(i.term)
  {
    var i := Block(f, p);
    var front := Heads(p, |i.phis|) + Others(i.body) + early + BranchFirst(i.term) + late;
    var code := Full(f, p, early, late);
    assert code == front + BranchLast(i.term);
    assert StopsCopies(BranchLast(i.term)[0]);
    FrontGoesOn(f, p, early, late, front);
    StopsOnce(code, k, |front|);
  }

  lemma FrontGoesOn(f: IRFunc, p: nat, early: seq<MInstr>, late: seq<MInstr>, front: seq<MInstr>)
    requires NoBranches(early) && NoBranches(late)
    requires front == Heads(p, |Block(f, p).phis|) + Others(Block(f, p).body) + early +
      BranchFirst(Block(f, p).term) + late
    ensures forall j :: 0 <= j < |front| ==> !StopsCopies(front[j])
  {
    var i := Block(f, p);
    forall m | m in front
      ensures !StopsCopies(m)
    {
      assert m in Heads(p, |i.phis|) || m in Others(i.body) || m in early || m in BranchFirst(i.term) || m in late;
    }
  }

  lemma StopsAtEnd(code: seq<MInstr>, k: nat)
    requires NoBranches(code) && StopsAt(code, k)
    ensures k == |code|
  {
    forall j | 0 <= j < |code|
      ensures !StopsCopies(code[j])
    {
      assert code[j] in code;
    }
    StopsOnce(code, k, |code|);
  }

  /** The code of p when one more copy has been put in. */
  lemma CopyGoesIn(f: IRFunc, order: nat -> nat, n: nat, q: Program, early: Program, late: Program, p: nat, m: MInstr,
                   k: nat,
                   q': Program, early': Program, late': Program)
    requires CopiesOk(f, order, early, late) && p in f && Selected(f, order, n, q, early, late) && m.Copy? &&
      order(m.b) == n
    requires order(p) != n && StopsAt(Code(q, p), k)
    requires q' == q[p := Code(q, p)[..k] + [m] + Code(q, p)[k..]]
    requires early' == if order(m.b) < order(p) then AddTo(early, p, m) else early
    requires late' == if order(m.b) < order(p) then late else AddTo(late, p, m)
    ensures Selected(f, order, n, q', early', late')
  {
    CopiesDoNotBranch(f, p, Code(early, p));
    CopiesDoNotBranch(f, p, Code(late, p));
    if order(p) < n {
      StopsInFull(f, p, Code(early, p), Code(late, p), k);
      FullGrows(f, p, Code(early, p), Code(late, p), k, m);
    } else {
      StopsAtEnd(Code(early, p), k);
      assert Code(early, p)[..k] + [m] + Code(early, p)[k..] == Code(early, p) + [m];
    }
    forall x {:trigger Code(q', x)} | x in f
      ensures SelectedAt(order(x) < n, f, x, Code(q', x), Code(early', x), Code(late', x))
    {
      assert SelectedAt(order(x) < n, f, x, Code(q, x), Code(early, x), Code(late, x));
    }
  }

  lemma FullGrows(f: IRFunc, p: nat, early: seq<MInstr>, late: seq<MInstr>, k: nat, m: MInstr)
    requires var i := Block(f, p); var front := Heads(p, |i.phis|) + Others(i.body) + early + BranchFirst(i.term) +
      late;
      k == |front| <= |Full(f, p, early, late)| && Full(f, p, early, late)[..k] == front &&
        Full(f, p, early, late)[k..] == BranchLast(i.term)
    ensures Full(f, p, early, late)[..k] + [m] + Full(f, p, early, late)[k..] == Full(f, p, early, late + [m])
  {
  }

  /** The block at position n is being built: the heads and instructions so far, and the copies that
      had been put there before. */
  ghost predicate Building(f: IRFunc, order: nat -> nat, b: nat, q: Program, early: Program, late: Program,
                           done: seq<MInstr>) {
    && b in f && q.Keys == f.Keys && Code(q, b) == done + Code(early, b)
    && Selected(f, order, order(b), q[b := Code(early, b)], early, late)
  }

  class InstructionSelector {
    const f: IRFunc
    var code: Program
    ghost var early: Program
    ghost var late: Program

    constructor (f: IRFunc)
      ensures this.f == f && code.Keys == f.Keys && (forall b :: b in f ==> code[b] == []) && early == map[] &&
        late == map[]
    {
      this.f := f;
      code := map b | b in f :: [];
      early, late := map[], map[];
    }

    /** The first branch of p that copies are put in front of. */
    method FindInstr(p: nat) returns (k: nat)
      ensures StopsAt(Code(code, p), k)
    {
      k := 0;
      while k < |Code(code, p)| && !StopsCopies(Code(code, p)[k])
        invariant k <= |Code(code, p)| && forall j :: 0 <= j < k ==> !StopsCopies(Code(code, p)[j])
      {
        k := k + 1;
      }
    }

    method InsertInstr(b: nat, k: nat, m: MInstr)
      requires b in code && k <= |code[b]|
      modifies this`code
      ensures code == old(code)[b := Code(old(code), b)[..k] + [m] + Code(old(code), b)[k..]]
    {
      code := code[b := Code(code, b)[..k] + [m] + Code(code, b)[k..]];
    }

    /** Copies to the temporary in the predecessors, and the move from it at the insertion point. */
    method GenPhi(b: nat, i: nat, ghost order: nat -> nat)
      requires b in f && i < |f[b].phis| && EdgesApart(f, order)
      requires CopiesOk(f, order, early, late) && CopiedTo(f, order, early, late, order(b), i, 0)
      requires Building(f, order, b, code, early, late, Heads(b, i))
      modifies this`code, this`early, this`late
      ensures CopiesOk(f, order, early, late) && CopiedTo(f, order, early, late, order(b), i + 1, 0)
      ensures Building(f, order, b, code, early, late, Heads(b, i + 1))
    {
      var phi := f[b].phis[i];
      for k := 0 to |phi.args|
        invariant CopiesOk(f, order, early, late) && CopiedTo(f, order, early, late, order(b), i, k)
        invariant Building(f, order, b, code, early, late, Heads(b, i))
      {
        GenCopy(b, i, k, order);
      }
      NextPhi(f, order, early, late, b, i);
      HeadGoesIn(f, order, b, i, code, early, late);
      InsertInstr(b, i, Head(b, i));
    }

    /** The copy in one predecessor. */
    method GenCopy(b: nat, i: nat, k: nat, ghost order: nat -> nat)
      requires b in f && i < |f[b].phis| && k < |f[b].phis[i].args| && EdgesApart(f, order)
      requires CopiesOk(f, order, early, late) && CopiedTo(f, order, early, late, order(b), i, k)
      requires Building(f, order, b, code, early, late, Heads(b, i))
      modifies this`code, this`early, this`late
      ensures CopiesOk(f, order, early, late) && CopiedTo(f, order, early, late, order(b), i, k + 1)
      ensures Building(f, order, b, code, early, late, Heads(b, i))
    {
      var (p, src) := f[b].phis[i].args[k];
      var m := Copy(b, i, src);
      assert (p, src) in f[b].phis[i].args;
      var at := FindInstr(p);
      CopyInBuilding(f, order, b, i, k, code, early, late, p, m, at);
      InsertInstr(p, at, m);
      if order(b) < order(p) {
        early := AddTo(early, p, m);
      } else {
        late := AddTo(late, p, m);
      }
    }

    /** The phis, the other instructions and the branch of b. */
    method SelectBlock(b: nat, ghost order: nat -> nat)
      requires b in f && EdgesApart(f, order) && CopiesOk(f, order, early, late)
      requires Selected(f, order, order(b), code, early, late) && CopiedTo(f, order, early, late, order(b), 0, 0)
      modifies this`code, this`early, this`late
      ensures CopiesOk(f, order, early, late)
      ensures Selected(f, order, order(b) + 1, code, early, late) && CopiedTo(f, order, early, late, order(b) + 1, 0, 0)
    {
      var ir := f[b];
      BuildingBegins(f, order, b, code, early, late);
      for i := 0 to |ir.phis|
        invariant CopiesOk(f, order, early, late) && CopiedTo(f, order, early, late, order(b), i, 0)
        invariant Building(f, order, b, code, early, late, Heads(b, i))
      {
        GenPhi(b, i, order);
      }
      NextBlock(f, order, early, late, b);
      GenBody(b, order);
      GenBr(b, order);
    }

    method GenBody(b: nat, ghost order: nat -> nat)
      requires b in f && Building(f, order, b, code, early, late, Heads(b, |f[b].phis|))
      modifies this`code
      ensures Building(f, order, b, code, early, late, Heads(b, |f[b].phis|) + Others(f[b].body))
    {
      var body := f[b].body;
      ghost var heads := Heads(b, |f[b].phis|);
      assert heads + Others(body[..0]) == heads;
      for j := 0 to |body|
        invariant Building(f, order, b, code, early, late, heads + Others(body[..j]))
      {
        OtherGoesIn(f, order, b, heads, body, j, code, early, late);
        InsertInstr(b, |f[b].phis| + j, Other(body[j]));
      }
      assert body[..|body|] == body;
    }

    method GenBr(b: nat, ghost order: nat -> nat)
      requires b in f && Building(f, order, b, code, early, late, Heads(b, |f[b].phis|) + Others(f[b].body))
      requires EdgesApart(f, order) && CopiesOk(f, order, early, late)
      modifies this`code
      ensures Selected(f, order, order(b) + 1, code, early, late)
    {
      BranchGoesIn(f, order, b, code, early, late);
      code := code[b := Code(code, b) + BranchFirst(f[b].term) + BranchLast(f[b].term)];
    }

    /** Selects all blocks, in the order of the list. */
    method Run(blocks: seq<nat>, ghost order: nat -> nat)
      requires code.Keys == f.Keys && (forall b :: b in f ==> code[b] == []) && early == map[] && late == map[]
      requires EdgesApart(f, order) && ArgsOk(f) &&
        (forall k :: 0 <= k < |blocks| ==> blocks[k] in f && order(blocks[k]) == k)
      requires forall b :: b in f ==> b in blocks
      modifies this`code, this`early, this`late
      ensures Finished(f, order, code, early, late)
    {
      for k := 0 to |blocks|
        invariant CopiesOk(f, order, early, late)
        invariant Selected(f, order, k, code, early, late) && CopiedTo(f, order, early, late, k, 0, 0)
      {
        SelectBlock(blocks[k], order);
      }
      AllSelected(f, order, blocks, code, early, late);
    }
  }

  /** No block is its own predecessor, and the order tells blocks apart. */
  ghost predicate EdgesApart(f: IRFunc, order: nat -> nat) {
    && (forall b, i, k {:trigger f[b].phis[i].args[k]} ::
        b in f && 0 <= i < |f[b].phis| && 0 <= k < |f[b].phis[i].args| ==>
          f[b].phis[i].args[k].0 != b && f[b].phis[i].args[k].0 in f)
    && forall b, c {:trigger order(b), order(c)} :: b in f && c in f && order(b) == order(c) ==> b == c
  }

  lemma CopyInBuilding(f: IRFunc, order: nat -> nat, b: nat, i: nat, k: nat, q: Program, early: Program,
                       late: Program, p: nat, m: MInstr, at: nat)
    requires b in f && i < |f[b].phis| && k < |f[b].phis[i].args| && EdgesApart(f, order)
    requires CopiesOk(f, order, early, late) && CopiedTo(f, order, early, late, order(b), i, k)
    requires Building(f, order, b, q, early, late, Heads(b, i))
    requires m.Copy? && m.b == b && m.i == i && f[b].phis[i].args[k] == (p, m.src) && StopsAt(Code(q, p), at)
    ensures p in q
    ensures var early' := if order(b) < order(p) then AddTo(early, p, m) else early;
      var late' := if order(b) < order(p) then late else AddTo(late, p, m);
      && CopiesOk(f, order, early', late') && CopiedTo(f, order, early', late', order(b), i, k + 1)
      && Building(f, order, b, q[p := Code(q, p)[..at] + [m] + Code(q, p)[at..]], early', late', Heads(b, i))
  {
    var early' := if order(b) < order(p) then AddTo(early, p, m) else early;
    var late' := if order(b) < order(p) then late else AddTo(late, p, m);
    assert p == f[b].phis[i].args[k].0 && p != b && p in f;
    assert order(p) != order(b);
    CopyAdded(f, order, early, late, p, m, early', late');
    OneMoreCopied(f, order, early, late, b, i, k, m, early', late');
    var q0, q1 := q[b := Code(early, b)], q[p := Code(q, p)[..at] + [m] + Code(q, p)[at..]];
    CopyGoesIn(f, order, order(b), q0, early, late, p, m, at, q0[p := Code(q0, p)[..at] + [m] + Code(q0, p)[at..]],
               early', late');
    assert q1[b := Code(early', b)] == q0[p := Code(q0, p)[..at] + [m] + Code(q0, p)[at..]];
  }

  lemma HeadGoesIn(f: IRFunc, order: nat -> nat, b: nat, i: nat, q: Program, early: Program, late: Program)
    requires Building(f, order, b, q, early, late, Heads(b, i))
    ensures b in q && i <= |q[b]|
    ensures Building(f, order, b, q[b := Code(q, b)[..i] + [Head(b, i)] + Code(q, b)[i..]], early, late,
                     Heads(b, i + 1))
  {
    var q' := q[b := Code(q, b)[..i] + [Head(b, i)] + Code(q, b)[i..]];
    assert Heads(b, i + 1) == Heads(b, i) + [Head(b, i)];
    assert Code(q, b)[..i] == Heads(b, i) && Code(q, b)[i..] == Code(early, b);
    assert q'[b := Code(early, b)] == q[b := Code(early, b)];
  }

  lemma BuildingBegins(f: IRFunc, order: nat -> nat, b: nat, q: Program, early: Program, late: Program)
    requires b in f && Selected(f, order, order(b), q, early, late)
    ensures Building(f, order, b, q, early, late, Heads(b, 0))
  {
    assert Code(q, b) == Code(early, b);
    assert Heads(b, 0) + Code(early, b) == Code(early, b);
    assert q[b := Code(early, b)] == q;
  }

  lemma OtherGoesIn(f: IRFunc, order: nat -> nat, b: nat, heads: seq<MInstr>, body: seq<nat>, j: nat, q: Program,
                    early: Program, late: Program)
    requires j < |body| && Building(f, order, b, q, early, late, heads + Others(body[..j]))
    ensures b in q && |heads| + j <= |Code(q, b)|
    ensures Building(f, order, b, q[b := Code(q, b)[..|heads| + j] + [Other(body[j])] + Code(q, b)[|heads| + j..]],
                     early, late,
                     heads + Others(body[..j + 1]))
  {
    var at := |heads| + j;
    var q' := q[b := Code(q, b)[..at] + [Other(body[j])] + Code(q, b)[at..]];
    assert Others(body[..j + 1]) == Others(body[..j]) + [Other(body[j])];
    assert Code(q, b)[..at] == heads + Others(body[..j]) && Code(q, b)[at..] == Code(early, b);
    assert q'[b := Code(early, b)] == q[b := Code(early, b)];
    assert heads + Others(body[..j]) + [Other(body[j])] == heads + Others(body[..j + 1]);
  }

  lemma BranchGoesIn(f: IRFunc, order: nat -> nat, b: nat, q: Program, early: Program, late: Program)
    requires EdgesApart(f, order) && CopiesOk(f, order, early, late)
    requires b in f && Building(f, order, b, q, early, late, Heads(b, |f[b].phis|) + Others(f[b].body))
    ensures Selected(f, order, order(b) + 1, q[b := Code(q, b) + BranchFirst(f[b].term) + BranchLast(f[b].term)],
                     early, late)
  {
    var q0 := q[b := Code(early, b)];
    var q' := q[b := Code(q, b) + BranchFirst(f[b].term) + BranchLast(f[b].term)];
    assert Code(q0, b) == Code(early, b) && Code(late, b) == [];
    forall x {:trigger Code(q', x)} | x in f
      ensures SelectedAt(order(x) < order(b) + 1, f, x, Code(q', x), Code(early, x), Code(late, x))
    {
      assert SelectedAt(order(x) < order(b), f, x, Code(q0, x), Code(early, x), Code(late, x));
      assert order(x) == order(b) ==> x == b;
    }
  }

  lemma AllSelected(f: IRFunc, order: nat -> nat, blocks: seq<nat>, q: Program, early: Program, late: Program)
    requires ArgsOk(f) && CopiesOk(f, order, early, late) && Selected(f, order, |blocks|, q, early, late)
    requires CopiedTo(f, order, early, late, |blocks|, 0, 0)
    requires (forall k :: 0 <= k < |blocks| ==> order(blocks[k]) == k) && forall b :: b in f ==> b in blocks
    ensures Finished(f, order, q, early, late)
  {
    forall b | b in f
      ensures order(b) < |blocks|
    {
      var k :| 0 <= k < |blocks| && blocks[k] == b;
    }
    forall p {:trigger Code(q, p)} | p in f
      ensures Code(q, p) == Full(f, p, Code(early, p), Code(late, p)) &&
        Placed(f, order, p, Code(early, p), Code(late, p))
    {
      assert order(p) < |blocks|;
      AllPlaced(f, order, |blocks|, early, late, p);
    }
  }

  lemma AllPlaced(f: IRFunc, order: nat -> nat, n: nat, early: Program, late: Program, p: nat)
    requires CopiesOk(f, order, early, late) && CopiedTo(f, order, early, late, n, 0, 0) && forall b :: b in f ==>
      order(b) < n
    ensures Placed(f, order, p, Code(early, p), Code(late, p))
  {
    assert CopiesBefore(order, p, Code(early, p)) && CopiesBehind(order, p, Code(late, p));
    forall b, i {:trigger Copied(Code(early, p), b, i)} {:trigger Copied(Code(late, p), b, i)}
      | b in f && 0 <= i < |f[b].phis| && HasArg(f[b].phis[i], p)
      ensures if order(b) < order(p) then Copied(Code(early, p), b, i) else Copied(Code(late, p), b, i)
    {
      var k :| 0 <= k < |f[b].phis[i].args| && f[b].phis[i].args[k].0 == p;
      assert ArgCopied(f, order, early, late, b, i, k);
    }
  }
}
