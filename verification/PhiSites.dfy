// Phi placement, on the frontiers that the dominator analysis finds, gives every variable the
// phis that renaming relies on.

module PhiSites {
  import opened FlowGraph
  import opened DomTree
  import opened PhiPlacement
  import opened Ssa
  import opened Renaming

  /** What placement promises for one variable. */
  ghost predicate SitesOf(df: Frontier, stores: seq<nat>, home: nat, pos: set<nat>) {
    if (forall b :: b in stores ==> b == home) then pos == {} else Iterated(df, (set b | b in stores) + {home}, pos)
  }

  lemma FrontiersAreOverBlocks(g: Cfg, t: Tree, df: Frontier)
    requires g.Valid() && TreeOk(t) && Total(g, t) && Frontiers(g, t, df, {})
    ensures OverBlocks(df)
  {
    forall x, y | x in df && y in df[x]
      ensures y in df
    {
      assert InFrontier(g, t, x, y);
    }
  }

  /** Nothing branches to the entry, so it is in no frontier. */
  lemma SitesAreJoins(g: Cfg, t: Tree, df: Frontier, stores: seq<nat>, home: nat, pos: set<nat>)
    requires g.Valid() && TreeOk(t) && Total(g, t) && Frontiers(g, t, df, {}) && SitesOf(df, stores, home, pos)
    ensures forall b :: b in pos ==> b in g.blocks && b != g.entry
  {
    var most := g.blocks - {g.entry};
    forall b | b in df
      ensures df[b] <= most
    {
      forall y | y in df[b]
        ensures y in most
      {
        assert InFrontier(g, t, b, y);
      }
    }
    assert Closed(df, (set b | b in stores) + {home}, most);
  }

  lemma SitesAreClosed(g: Cfg, t: Tree, df: Frontier, stores: seq<nat>, home: nat, pos: set<nat>, x: nat, y: nat)
    requires g.Valid() && TreeOk(t) && Total(g, t) && Frontiers(g, t, df, {}) && SitesOf(df, stores, home, pos)
    requires x in g.blocks && (x in stores || x == home || x in pos) && InFrontier(g, t, x, y)
    ensures y in pos || forall b :: b in stores ==> b == home
  {
    assert y in df[x];
  }

  ghost predicate AllSites(c: Ctx, df: Frontier, stores: map<nat, seq<nat>>) {
    && c.phi.Keys == c.home.Keys && stores.Keys == c.home.Keys
    && (forall v, b {:trigger StoresIn(c, b, v)} {:trigger b in stores[v]} :: v in stores ==>
        (b in stores[v] <==> StoresIn(c, b, v)))
    && forall v :: v in c.home ==> SitesOf(df, stores[v], c.home[v].0, c.phi[v])
  }

  lemma SitesOfVariable(c: Ctx, df: Frontier, stores: map<nat, seq<nat>>, v: nat, x: nat, y: nat)
    requires Complete(c.f) && TreeOk(c.t) && Total(c.f.g, c.t) && Frontiers(c.f.g, c.t, df, {}) &&
      AllSites(c, df, stores)
    requires v in c.home && x in c.f.g.blocks && (Defines(c, x, v) || HasPhi(c, x, v)) && InFrontier(c.f.g, c.t, x, y)
    ensures HasPhi(c, y, v) || OneBlock(c, v)
  {
    assert StoresIn(c, x, v) ==> x in stores[v];
    SitesAreClosed(c.f.g, c.t, df, stores[v], c.home[v].0, c.phi[v], x, y);
  }

  lemma SitesPlacePhis(c: Ctx, df: Frontier, stores: map<nat, seq<nat>>)
    requires Complete(c.f) && TreeOk(c.t) && Total(c.f.g, c.t) && Frontiers(c.f.g, c.t, df, {}) &&
      AllSites(c, df, stores)
    ensures PhisPlaced(c)
  {
    forall v, b {:trigger HasPhi(c, b, v)} | HasPhi(c, b, v)
      ensures b in c.f.g.blocks && b != c.f.g.entry && v in c.home
    {
      SitesAreJoins(c.f.g, c.t, df, stores[v], c.home[v].0, c.phi[v]);
    }
    forall v, x, y {:trigger Defines(c, x, v), InFrontier(c.f.g, c.t, x, y)} {:trigger HasPhi(c, x, v),
      InFrontier(c.f.g, c.t, x, y)}
      | v in c.home && x in c.f.g.blocks && (Defines(c, x, v) || HasPhi(c, x, v)) && InFrontier(c.f.g, c.t, x, y)
      ensures HasPhi(c, y, v) || OneBlock(c, v)
    {
      SitesOfVariable(c, df, stores, v, x, y);
    }
  }
}
