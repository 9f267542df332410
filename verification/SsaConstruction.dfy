// The whole of SSA construction for one function: dominators, phi placement, renaming.

module SsaConstruction {
  import opened FlowGraph
  import opened DomTree
  import opened PostOrder
  import opened Dominators
  import opened PhiPlacement
  import opened Ssa
  import opened Renaming
  import opened MemoryToSsa
  import opened DefinitionStacks
  import opened PhiSites
  import opened Mem2Reg

  /** The function is well formed, however its dominator tree is numbered. */
  ghost predicate Proper(f: Func, site: map<nat, Site>, home: map<nat, Site>) {
    && Complete(f) && AllReachable(f.g)
    && forall t, phi :: TreeOk(t) && Total(f.g, t) && Exact(f.g, t) ==> WellFormed(Ctx(f, t, phi, site, home))
  }

  /** The use lists of the variables, and the blocks they are allocated in. */
  ghost predicate UseLists(f: Func, home: map<nat, Site>, allocas: map<nat, nat>, stores: map<nat, seq<nat>>) {
    && allocas.Keys == home.Keys && stores.Keys == home.Keys
    && (forall v :: v in home ==> allocas[v] == home[v].0)
    && forall v, b {:trigger b in stores[v]} :: v in home ==>
      (b in stores[v] <==> b in f.body && StoredIn(f.body[b], v))
  }

  ghost predicate StoredIn(code: seq<Instr>, v: nat) {
    exists k :: 0 <= k < |code| && code[k].Store? && code[k].v == v
  }

  /** Two runs agree on where they are, what they have done to the world and what they return;
      unless the first reads a variable before anything was stored to it. */
  predicate Agree(r: Run, r': Run) {
    match r
    case At(b, s) => r'.At? && r'.block == b && s.Live? && r'.state.Live? && r'.state.world == s.world
    case Done(_, _) => r' == r
    case Fault => true
  }

  /** In every run, for any number of steps. */
  ghost predicate SameMeaning(f: Func, q: SsaFunc)
    requires Runnable(f) && Runnable(q.code) && f.g.entry in f.g.blocks && f.g.entry in q.code.g.blocks
  {
    forall ops: Ops, n: nat, env: Env, env': Env, w: World ::
      Agree(RunFor(ops, f, n, f.g.entry, Live(env, map[], w)), RunSsaFor(ops, q, n, f.g.entry, Live(env', map[], w)))
  }

  lemma ResultMeansTheSame(c: Ctx, q: SsaFunc)
    requires WellFormed(c) && PhisPlaced(c) && IsResult(c, q)
    ensures Runnable(c.f) && Runnable(q.code) && q.code.g == c.f.g && c.f.g.entry in c.f.g.blocks && SameMeaning(c.f, q)
  {
    ResultRunnable(c);
    forall ops: Ops, n: nat, env: Env, env': Env, w: World
      ensures Agree(RunFor(ops, c.f, n, c.f.g.entry, Live(env, map[], w)),
                    RunSsaFor(ops, q, n, c.f.g.entry, Live(env', map[], w)))
    {
      SsaPreservesMeaning(ops, c, q, n, env, env', w);
    }
  }

  /** The context that renaming starts from. */
  lemma ReadyAtEntry(c: Ctx)
    requires WellFormed(c)
    ensures Ready(c, c.f.g.entry, map[], map[], map[])
  {
  }

  lemma StoresAgree(c: Ctx, df: Frontier, allocas: map<nat, nat>, stores: map<nat, seq<nat>>)
    requires Complete(c.f) && UseLists(c.f, c.home, allocas, stores) && c.phi.Keys == allocas.Keys
    requires forall v :: v in allocas ==> SitesOf(df, stores[v], allocas[v], c.phi[v])
    ensures AllSites(c, df, stores)
  {
    forall v, b {:trigger StoresIn(c, b, v)} {:trigger b in stores[v]} | v in stores
      ensures b in stores[v] <==> StoresIn(c, b, v)
    {
      assert b in c.f.body ==> Code(c, b) == c.f.body[b];
      assert StoresIn(c, b, v) <==> b in c.f.body && StoredIn(c.f.body[b], v);
    }
  }

  lemma EverythingIsBelowEntry(c: Ctx)
    requires WellFormed(c)
    ensures Below(c.f.g, c.t, c.f.g.entry) == c.f.g.blocks
  {
    forall b | b in c.f.g.blocks
      ensures c.f.g.entry in Above(c.t, b)
    {
      RootIsAbove(c.t, b);
    }
  }

  /** What renaming starts from, when the dominators and the phi sites are known. */
  lemma ContextIsReady(c: Ctx, df: Frontier, allocas: map<nat, nat>, stores: map<nat, seq<nat>>)
    requires Proper(c.f, c.site, c.home) && TreeOk(c.t) && Total(c.f.g, c.t) && Exact(c.f.g, c.t)
    requires UseLists(c.f, c.home, allocas, stores) && Frontiers(c.f.g, c.t, df, {})
    requires c.phi.Keys == allocas.Keys && forall v :: v in allocas ==> SitesOf(df, stores[v], allocas[v], c.phi[v])
    ensures WellFormed(c) && PhisPlaced(c) && Ready(c, c.f.g.entry, map[], map[], map[])
  {
    assert c == Ctx(c.f, c.t, c.phi, c.site, c.home);
    ReadyAtEntry(c);
    StoresAgree(c, df, allocas, stores);
    SitesPlacePhis(c, df, stores);
  }

  lemma AllocasKnown(f: Func, site: map<nat, Site>, home: map<nat, Site>, t: Tree, df: Frontier,
                     allocas: map<nat, nat>, stores: map<nat, seq<nat>>)
    requires Proper(f, site, home) && UseLists(f, home, allocas, stores)
    requires TreeOk(t) && Total(f.g, t) && Exact(f.g, t) && Frontiers(f.g, t, df, {})
    ensures OverBlocks(df) && stores.Keys == allocas.Keys
    ensures forall v :: v in allocas ==> allocas[v] in df && forall b :: b in stores[v] ==> b in df
  {
    FrontiersAreOverBlocks(f.g, t, df);
    var c := Ctx(f, t, map[], site, home);
    assert WellFormed(c);
    forall v | v in allocas
      ensures allocas[v] in df
    {
      assert AllocatesAt(c, v, home[v]);
    }
  }

  /** Promotes the local variables of f to values. Whatever the instructions compute, the result
      behaves like f. */
  method RunOnFunc(f: Func, allocas: map<nat, nat>, stores: map<nat, seq<nat>>, ghost site: map<nat, Site>,
                   ghost home: map<nat, Site>)
    returns (q: SsaFunc)
    requires Proper(f, site, home) && UseLists(f, home, allocas, stores)
    requires FrontBehind(f.g, Dfs(f.g, f.g.entry, {}).order)
    ensures Runnable(f) && Runnable(q.code) && q.code.g == f.g && f.g.entry in f.g.blocks && SameMeaning(f, q)
  {
    var dominators := new Dominators(f.g);
    dominators.RunOnFunc();
    ghost var t := dominators.Tree();
    q := Promote(f, dominators.dom_tree_succ_blocks_, dominators.dom_frontier_, allocas, stores, t, site, home);
  }

  method Promote(f: Func, succ: map<nat, set<nat>>, df: Frontier, allocas: map<nat, nat>, stores: map<nat, seq<nat>>,
                 ghost t: Tree, ghost site: map<nat, Site>, ghost home: map<nat, Site>)
    returns (q: SsaFunc)
    requires Proper(f, site, home) && UseLists(f, home, allocas, stores)
    requires TreeOk(t) && Total(f.g, t) && Exact(f.g, t) && Frontiers(f.g, t, df, {}) && Children(f.g, t, succ)
    ensures Runnable(f) && Runnable(q.code) && q.code.g == f.g && f.g.entry in f.g.blocks && SameMeaning(f, q)
  {
    AllocasKnown(f, site, home, t, df, allocas, stores);
    var pass := new Mem2Reg(f, succ);
    pass.GeneratePhis(df, allocas, stores);
    ghost var c := Ctx(f, t, pass.phi_map_, site, home);
    ContextIsReady(c, df, allocas, stores);
    q := RenameAll(pass, c);
  }

  method RenameAll(pass: Mem2Reg, ghost c: Ctx) returns (q: SsaFunc)
    requires c.f == pass.f && c.phi == pass.phi_map_ && WellFormed(c) && Children(c.f.g, c.t, pass.dom_tree_succ)
    requires PhisPlaced(c) && Ready(c, c.f.g.entry, pass.var_stack_, pass.replaced, pass.phi_args)
    requires pass.replaced == map[] && pass.phi_args == map[]
    modifies pass
    ensures Runnable(c.f) && Runnable(q.code) && q.code.g == c.f.g && c.f.g.entry in c.f.g.blocks && SameMeaning(c.f, q)
  {
    pass.Rename(pass.f.g.entry, c);
    EverythingIsBelowEntry(c);
    q := pass.Finish(c);
    ResultMeansTheSame(c, q);
  }
}
