// Which functions have no effect on what their callers can see.

module Purity {

  /** How an address is computed. */
  datatype Addr =
    | AllocaAddr
    | Gep(base: Addr)
    | Loaded
    | OfInstr(pointers: seq<Addr>)   // another instruction; its operands that are pointers
    | NotAnInstr                     // a global variable or a parameter

  datatype Inst = Store(addr: Addr) | Load(addr: Addr) | Call(callee: nat) | Plain

  datatype Fn = Fn(declared: bool, isMain: bool, scalarParams: bool, body: seq<Inst>)

  type Module = map<nat, Fn>

  /** Where an address comes from. */
  function FirstAddr(a: Addr): Addr {
    match a
    case Gep(base) => FirstAddr(base)
    case OfInstr(ps) => if ps == [] then a else FirstAddr(ps[0])
    case _ => a
  }

  predicate IsLocal(a: Addr) { FirstAddr(a).AllocaAddr? }

  predicate HasSideEffect(i: Inst) {
    match i
    case Store(a) => !IsLocal(a)
    case Load(a) => !IsLocal(a)
    case _ => false
  }

  predicate TriviallyImpure(f: Fn) {
    f.declared || f.isMain || !f.scalarParams || exists i :: i in f.body && HasSideEffect(i)
  }

  predicate Calls(m: Module, f: nat, g: nat) { f in m && Call(g) in m[f].body }

  /** A chain of calls from f to a function that is trivially impure. */
  ghost predicate ImpureChain(m: Module, p: seq<nat>, f: nat) {
    && |p| > 0 && p[0] == f && p[|p| - 1] in m && TriviallyImpure(m[p[|p| - 1]])
    && forall i :: 0 <= i < |p| - 1 ==> CallsNext(m, p, i)
  }

  predicate CallsNext(m: Module, p: seq<nat>, i: nat)
    requires i + 1 < |p|
  {
    Calls(m, p[i], p[i + 1])
  }

  ghost predicate Impure(m: Module, f: nat) { exists p :: ImpureChain(m, p, f) }

  lemma CallerIsImpure(m: Module, f: nat, g: nat)
    requires Impure(m, g) && Calls(m, f, g)
    ensures Impure(m, f)
  {
    var p :| ImpureChain(m, p, g);
    var q := [f] + p;
    forall i | 0 <= i < |q| - 1
      ensures CallsNext(m, q, i)
    {
      if i > 0 {
        assert CallsNext(m, p, i - 1);
      }
    }
    assert q[|q| - 1] == p[|p| - 1];
    assert ImpureChain(m, q, f);
  }

  lemma TrivialIsImpure(m: Module, f: nat)
    requires f in m && TriviallyImpure(m[f])
    ensures Impure(m, f)
  {
    assert ImpureChain(m, [f], f);
  }

  /** What holds of all trivially impure functions, and passes to callers, holds of all impure ones. */
  lemma {:induction false} ImpureIsReached(m: Module, s: set<nat>, p: seq<nat>, f: nat)
    requires ImpureChain(m, p, f)
    requires forall g :: g in m && TriviallyImpure(m[g]) ==> g in s
    requires forall g, h {:trigger Calls(m, h, g)} :: g in s && Calls(m, h, g) ==> h in s
    ensures f in s
    decreases |p|
  {
    if |p| > 1 {
      var q := p[1..];
      forall i | 0 <= i < |q| - 1
        ensures CallsNext(m, q, i)
      {
        assert CallsNext(m, p, i + 1);
      }
      assert q[|q| - 1] == p[|p| - 1];
      ImpureIsReached(m, s, q, p[1]);
      assert CallsNext(m, p, 0);
    }
  }

  // ----- what makes a function impure -----

  /** One step back from an address to the one it is derived from: the base of an element, or the
      first pointer among the operands of an instruction. */
  predicate DerivedFrom(a: Addr, b: Addr) {
    match a
    case Gep(base) => b == base
    case OfInstr(ps) => ps != [] && b == ps[0]
    case _ => false
  }

  predicate DerivedNext(p: seq<Addr>, i: nat)
    requires i + 1 < |p|
  {
    DerivedFrom(p[i], p[i + 1])
  }

  /** All the way back from a to e, which is derived from nothing. */
  ghost predicate Derivation(p: seq<Addr>, a: Addr, e: Addr) {
    && |p| > 0 && p[0] == a && p[|p| - 1] == e && (forall b :: !DerivedFrom(e, b))
    && forall i :: 0 <= i < |p| - 1 ==> DerivedNext(p, i)
  }

  lemma {:induction false} FirstAddrDerives(a: Addr) returns (p: seq<Addr>)
    ensures Derivation(p, a, FirstAddr(a))
  {
    if a.Gep? || (a.OfInstr? && a.pointers != []) {
      var b := if a.Gep? then a.base else a.pointers[0];
      var q := FirstAddrDerives(b);
      p := [a] + q;
      forall i | 0 <= i < |p| - 1
        ensures DerivedNext(p, i)
      {
        if i > 0 {
          assert DerivedNext(q, i - 1);
        }
      }
    } else {
      p := [a];
    }
  }

  lemma {:induction false} DerivationEnds(p: seq<Addr>, a: Addr, e: Addr)
    requires Derivation(p, a, e)
    ensures FirstAddr(a) == e
    decreases |p|
  {
    if |p| > 1 {
      assert DerivedNext(p, 0);
      var q := p[1..];
      forall i | 0 <= i < |q| - 1
        ensures DerivedNext(q, i)
      {
        assert DerivedNext(p, i + 1);
      }
      DerivationEnds(q, p[1], e);
    } else if a.Gep? {
      assert DerivedFrom(a, a.base);
    } else if a.OfInstr? && a.pointers != [] {
      assert DerivedFrom(a, a.pointers[0]);
    }
  }

  /** A load or a store of something that is not derived from a variable of the function. */
  ghost predicate AccessesElsewhere(i: Inst) {
    (i.Store? || i.Load?) && exists p, e :: Derivation(p, i.addr, e) && !e.AllocaAddr?
  }

  lemma SideEffectsAreAccesses(i: Inst)
    ensures HasSideEffect(i) <==> AccessesElsewhere(i)
  {
    if i.Store? || i.Load? {
      var p := FirstAddrDerives(i.addr);
      forall q, e | Derivation(q, i.addr, e)
        ensures e == FirstAddr(i.addr)
      {
        DerivationEnds(q, i.addr, e);
      }
    }
  }

  ghost predicate CallPath(m: Module, p: seq<nat>, f: nat, g: nat) {
    |p| > 0 && p[0] == f && p[|p| - 1] == g && forall i :: 0 <= i < |p| - 1 ==> CallsNext(m, p, i)
  }

  /** Only declared, called main, given a pointer, or with an access to memory elsewhere. */
  ghost predicate ImpureByItself(f: Fn) {
    f.declared || f.isMain || !f.scalarParams || exists i :: i in f.body && AccessesElsewhere(i)
  }

  lemma TriviallyIsByItself(f: Fn)
    ensures TriviallyImpure(f) <==> ImpureByItself(f)
  {
    forall i | i in f.body
      ensures HasSideEffect(i) <==> AccessesElsewhere(i)
    {
      SideEffectsAreAccesses(i);
    }
  }

  /** A function is impure if and only if calls lead to one that is so by itself. */
  lemma ImpureExactly(m: Module, f: nat)
    ensures Impure(m, f) <==> exists p, g :: CallPath(m, p, f, g) && g in m && ImpureByItself(m[g])
  {
    if Impure(m, f) {
      var p :| ImpureChain(m, p, f);
      TriviallyIsByItself(m[p[|p| - 1]]);
      assert CallPath(m, p, f, p[|p| - 1]);
    }
    forall p, g | CallPath(m, p, f, g) && g in m && ImpureByItself(m[g])
      ensures Impure(m, f)
    {
      TriviallyIsByItself(m[g]);
      assert ImpureChain(m, p, f);
    }
  }

  // ----- what purity means -----

  /** Memory that callers can see, and what has been read and written outside the program. */
  datatype World = World(mem: map<int, int>, io: seq<int>)

  /** A place in memory: in a variable of the function that runs, or elsewhere. */
  datatype Cell = Own(at: int) | Outside(at: int)

  /** Where an address may point: an element lies where its base does, what is loaded may point
      anywhere, and what an instruction makes of pointers is one of them. */
  ghost predicate MayPoint(a: Addr, c: Cell) {
    match a
    case AllocaAddr => c.Own?
    case Gep(base) => exists d :: MayPoint(base, d) && d.Own? == c.Own?
    case Loaded => true
    case OfInstr(ps) => ps == [] || exists k :: 0 <= k < |ps| && MayPoint(ps[k], c)
    case NotAnInstr => c.Outside?
  }

  /** One way through a function: the instructions it carries out, each with the cell it accesses
      and the value it stores, if it does; and calls. */
  datatype Event = Did(at: nat, cell: Cell, value: int) | Called(run: Run)
  datatype Run = Run(f: nat, events: seq<Event>)

  ghost predicate ValidRun(m: Module, r: Run)
    decreases r
  {
    r.f in m && forall k :: 0 <= k < |r.events| ==> ValidEvent(m, r.f, r.events[k])
  }

  ghost predicate ValidEvent(m: Module, f: nat, e: Event)
    decreases e
  {
    match e
    case Did(k, c, _) => f in m && k < |m[f].body| && ValidAccess(m[f].body[k], c)
    case Called(r) => Calls(m, f, r.f) && ValidRun(m, r)
  }

  ghost predicate ValidAccess(i: Inst, c: Cell) {
    match i
    case Store(a) => MayPoint(a, c)
    case Load(a) => MayPoint(a, c)
    case Call(_) => false
    case Plain => true
  }

  /** What functions do that are only declared. */
  type Extern = (nat, World) -> World

  function AfterRun(x: Extern, m: Module, r: Run, w: World): World
    decreases r
  {
    match r
    case Run(f, events) => if f in m && m[f].declared then x(f, w) else AfterEvents(x, m, f, events, w)
  }

  function AfterEvents(x: Extern, m: Module, f: nat, events: seq<Event>, w: World): World
    decreases events
  {
    if events == [] then w
    else
      var w' := AfterEvent(x, m, f, events[0], w);
      AfterEvents(x, m, f, events[1..], w')
  }

  /** A store to a cell outside changes the world; a variable of the function is nobody's business. */
  function AfterEvent(x: Extern, m: Module, f: nat, v: Event, w: World): World
    decreases v
  {
    match v
    case Did(k, c, n) =>
      if f in m && k < |m[f].body| && m[f].body[k].Store? && c.Outside? then w.(mem := w.mem[c.at := n]) else w
    case Called(r) => AfterRun(x, m, r, w)
  }

  /** An address that can only point to a variable of the function. */
  predicate StaysInside(a: Addr) {
    match a
    case AllocaAddr => true
    case Gep(base) => StaysInside(base)
    case OfInstr(ps) => ps != [] && forall k :: 0 <= k < |ps| ==> StaysInside(ps[k])
    case _ => false
  }

  lemma {:induction false} InsideExactly(a: Addr, at: int)
    ensures MayPoint(a, Outside(at)) <==> !StaysInside(a)
  {
    match a
    case Gep(base) =>
      InsideExactly(base, at);
      forall d | MayPoint(base, d) && d.Outside?
        ensures !StaysInside(base)
      {
        InsideExactly(base, d.at);
      }
    case OfInstr(ps) =>
      forall k | 0 <= k < |ps|
        ensures MayPoint(ps[k], Outside(at)) <==> !StaysInside(ps[k])
      {
        InsideExactly(ps[k], at);
      }
    case _ =>
  }

  /** All that pure functions store to are variables of their own. */
  ghost predicate PureStayInside(m: Module) {
    forall f, i {:trigger i in m[f].body} :: f in m && !Impure(m, f) && i in m[f].body && i.Store? ==>
      StaysInside(i.addr)
  }

  /** An address that is not made of several pointers. */
  predicate Straight(a: Addr) {
    match a
    case Gep(base) => Straight(base)
    case OfInstr(ps) => ps == [] || (|ps| == 1 && Straight(ps[0]))
    case _ => true
  }

  lemma {:induction false} StraightIsDerived(a: Addr)
    requires Straight(a)
    ensures StaysInside(a) <==> FirstAddr(a).AllocaAddr?
  {
    match a
    case Gep(base) => StraightIsDerived(base);
    case OfInstr(ps) =>
      if ps != [] {
        StraightIsDerived(ps[0]);
      }
    case _ =>
  }

  /** Where no store goes through an instruction with several pointers, pure functions stay inside. */
  lemma StraightStaysInside(m: Module)
    requires forall f, i {:trigger i in m[f].body} :: f in m && i in m[f].body && i.Store? ==> Straight(i.addr)
    ensures PureStayInside(m)
  {
    forall f, i {:trigger i in m[f].body} | f in m && !Impure(m, f) && i in m[f].body && i.Store?
      ensures StaysInside(i.addr)
    {
      StraightIsDerived(i.addr);
      if !StaysInside(i.addr) {
        TrivialIsImpure(m, f);
      }
    }
  }

  /** Then a pure function, whichever way it goes, leaves the world as it was. */
  lemma {:induction false} PureKeepsWorld(x: Extern, m: Module, r: Run, w: World)
    requires ValidRun(m, r) && !Impure(m, r.f) && PureStayInside(m)
    ensures AfterRun(x, m, r, w) == w
    decreases r
  {
    match r
    case Run(f, events) =>
      if m[f].declared {
        TrivialIsImpure(m, f);
      } else {
        PureKeepsWorldOver(x, m, f, events, w);
      }
  }

  lemma {:induction false} PureKeepsWorldOver(x: Extern, m: Module, f: nat, events: seq<Event>, w: World)
    requires f in m && !Impure(m, f) && PureStayInside(m)
    requires forall k :: 0 <= k < |events| ==> ValidEvent(m, f, events[k])
    ensures AfterEvents(x, m, f, events, w) == w
    decreases events
  {
    if events != [] {
      assert ValidEvent(m, f, events[0]);
      PureKeepsWorldOnce(x, m, f, events[0], w);
      PureKeepsWorldOver(x, m, f, events[1..], w);
    }
  }

  lemma {:induction false} PureKeepsWorldOnce(x: Extern, m: Module, f: nat, v: Event, w: World)
    requires f in m && !Impure(m, f) && ValidEvent(m, f, v) && PureStayInside(m)
    ensures AfterEvent(x, m, f, v, w) == w
    decreases v
  {
    match v
    case Did(k, c, _) =>
      var i := m[f].body[k];
      assert i in m[f].body;
      if i.Store? && c.Outside? {
        InsideExactly(i.addr, c.at);
      }
    case Called(r) =>
      CallIsPure(m, f, r.f);
      PureKeepsWorld(x, m, r, w);
  }

  /** No run of a pure function changes the world. */
  ghost predicate PureNeverWrites(m: Module) {
    forall x: Extern, r, w {:trigger AfterRun(x, m, r, w)} ::
      ValidRun(m, r) && !Impure(m, r.f) ==> AfterRun(x, m, r, w) == w
  }

  /** That is so if and only if pure functions stay inside. */
  lemma NeverWritesExactly(m: Module)
    ensures PureNeverWrites(m) <==> PureStayInside(m)
  {
    if PureStayInside(m) {
      forall x: Extern, r, w | ValidRun(m, r) && !Impure(m, r.f)
        ensures AfterRun(x, m, r, w) == w
      {
        PureKeepsWorld(x, m, r, w);
      }
    } else {
      var f, i :| f in m && !Impure(m, f) && i in m[f].body && i.Store? && !StaysInside(i.addr);
      var k :| 0 <= k < |m[f].body| && m[f].body[k] == i;
      var x: Extern := (g, w) => w;
      var r, w := StoreRun(f, k), World(map[], []);
      OutsideStoreWrites(x, m, f, k);
      assert AfterRun(x, m, r, w) != w;
    }
  }

  /** The run that carries out one store, to a cell outside, and nothing else. */
  function StoreRun(f: nat, k: nat): Run { Run(f, [Did(k, Outside(0), 1)]) }

  lemma OutsideStoreWrites(x: Extern, m: Module, f: nat, k: nat)
    requires f in m && !Impure(m, f) && k < |m[f].body| && m[f].body[k].Store? && !StaysInside(m[f].body[k].addr)
    ensures ValidRun(m, StoreRun(f, k)) && AfterRun(x, m, StoreRun(f, k), World(map[], [])) != World(map[], [])
  {
    InsideExactly(m[f].body[k].addr, 0);
    if m[f].declared {
      TrivialIsImpure(m, f);
    }
    var e, w := Did(k, Outside(0), 1), World(map[], []);
    assert [e][1..] == [];
    assert AfterEvents(x, m, f, [e], w) == AfterEvent(x, m, f, e, w);
    assert 0 in AfterEvent(x, m, f, e, w).mem;
  }

  lemma CallsNothing(m: Module, f: nat)
    requires f in m && !TriviallyImpure(m[f]) && forall g :: !Calls(m, f, g)
    ensures !Impure(m, f)
  {
    if Impure(m, f) {
      var p :| ImpureChain(m, p, f);
      ImpureIsReached(m, m.Keys - {f}, p, f);
    }
  }

  /** The analysis follows the first pointer of an instruction only: a store through a choice
      between a variable and a global counts as a store to the variable. */
  lemma ChoiceEscapes()
    ensures
      var m: Module := map[0 := Fn(false, false, true, [Store(OfInstr([AllocaAddr, NotAnInstr]))])];
      !Impure(m, 0) && !PureStayInside(m) && !PureNeverWrites(m)
  {
    var i := Store(OfInstr([AllocaAddr, NotAnInstr]));
    var m: Module := map[0 := Fn(false, false, true, [i])];
    assert FirstAddr(i.addr) == FirstAddr(AllocaAddr) == AllocaAddr;
    assert !HasSideEffect(i);
    CallsNothing(m, 0);
    assert !StaysInside(i.addr) by {
      assert !StaysInside(i.addr.pointers[1]);
    }
    assert i in m[0].body;
    NeverWritesExactly(m);
  }

  /** Nor does a pure function look at the world: all it loads and stores is derived from its own
      variables, and so in all functions it calls. */
  lemma PureAccessesNothingElse(m: Module, f: nat, p: seq<nat>, g: nat, i: Inst)
    requires f in m && !Impure(m, f) && CallPath(m, p, f, g) && g in m && i in m[g].body
    ensures !AccessesElsewhere(i) && !m[g].declared
  {
    ImpureExactly(m, f);
    assert CallPath(m, p, f, g);
  }

  lemma CallIsPure(m: Module, f: nat, g: nat)
    requires !Impure(m, f) && Calls(m, f, g)
    ensures !Impure(m, g)
  {
    if Impure(m, g) {
      CallerIsImpure(m, f, g);
    }
  }

  // ----- the analysis -----

  /** The work list holds the impure functions whose callers are still to be marked. */
  ghost predicate Spreading(m: Module, is_pure: map<nat, bool>, work: seq<nat>) {
    && is_pure.Keys == m.Keys && SoundlyMarked(m, is_pure)
    && (forall f :: f in work ==> f in m && !is_pure[f])
    && CallersMarked(m, is_pure, work)
  }

  ghost predicate SoundlyMarked(m: Module, is_pure: map<nat, bool>)
    requires is_pure.Keys == m.Keys
  {
    && (forall f :: f in m && TriviallyImpure(m[f]) ==> !is_pure[f])
    && (forall f :: f in m && !is_pure[f] ==> Impure(m, f))
  }

  ghost predicate CallersMarked(m: Module, is_pure: map<nat, bool>, work: seq<nat>)
    requires is_pure.Keys == m.Keys
  {
    forall f, g {:trigger Calls(m, g, f)} :: f in m && !is_pure[f] && f !in work && Calls(m, g, f) ==> !is_pure[g]
  }

  lemma SpreadingEnds(m: Module, is_pure: map<nat, bool>)
    requires Spreading(m, is_pure, [])
    ensures forall f :: f in m ==> (is_pure[f] <==> !Impure(m, f))
  {
    var s := set f | f in m && !is_pure[f];
    forall f | f in m && Impure(m, f)
      ensures !is_pure[f]
    {
      var p :| ImpureChain(m, p, f);
      forall g, h {:trigger Calls(m, h, g)} | g in s && Calls(m, h, g)
        ensures h in s
      {
      }
      ImpureIsReached(m, s, p, f);
    }
  }

  /** The functions that are still taken to be pure. */
  function PureOnes(is_pure: map<nat, bool>): set<nat> { set f | f in is_pure && is_pure[f] }

  lemma FewerPure(is_pure: map<nat, bool>, f: nat)
    requires f in is_pure && is_pure[f]
    ensures |PureOnes(is_pure[f := false])| < |PureOnes(is_pure)|
  {
    assert PureOnes(is_pure) == PureOnes(is_pure[f := false]) + {f};
  }

  predicate Marked(is_pure: map<nat, bool>, fs: seq<nat>) {
    forall f :: f in fs ==> f in is_pure && !is_pure[f]
  }

  lemma MarkedMore(is_pure: map<nat, bool>, fs: seq<nat>, f: nat)
    requires Marked(is_pure, fs)
    ensures Marked(is_pure[f := false], fs + [f])
    ensures f in is_pure && !is_pure[f] ==> Marked(is_pure, fs + [f])
  {
  }

  lemma AllMarked(m: Module, is_pure: map<nat, bool>, callers: seq<nat>, func: nat)
    requires Marked(is_pure, [func] + callers[..|callers|]) && forall g :: g in callers <==> Calls(m, g, func)
    ensures func in is_pure && !is_pure[func] && forall g :: Calls(m, g, func) ==> g in is_pure && !is_pure[g]
  {
    assert callers[..|callers|] == callers;
    assert func in [func] + callers && forall g :: g in callers ==> g in [func] + callers;
  }

  /** How much there is left to do. */
  function Weight(is_pure: map<nat, bool>, work: seq<nat>): nat { 2 * |PureOnes(is_pure)| + |work| }

  class FuncInfo {
    const m: Module
    const users: map<nat, seq<nat>>   // the functions with an instruction that uses a function
    var is_pure: map<nat, bool>
    var worklist: seq<nat>

    constructor (m: Module, users: map<nat, seq<nat>>)
      ensures this.m == m && this.users == users && is_pure == map[] && worklist == []
    {
      this.m, this.users, is_pure, worklist := m, users, map[], [];
    }

    /** The use lists agree with the call instructions. */
    ghost predicate UseLists() {
      users.Keys == m.Keys && forall f, g {:trigger Calls(m, g, f)} {:trigger g in users[f]} :: f in m ==>
        (g in users[f] <==> Calls(m, g, f))
    }

    method TrivialMark(funcs: seq<nat>)
      requires (forall f :: f in funcs <==> f in m) && is_pure == map[] && worklist == []
      modifies this
      ensures Spreading(m, is_pure, worklist)
    {
      for k := 0 to |funcs|
        invariant is_pure.Keys == set f | f in funcs[..k]
        invariant forall f :: f in is_pure ==> f in m && (is_pure[f] <==> !TriviallyImpure(m[f]))
        invariant forall f :: f in worklist <==> f in is_pure && !is_pure[f]
      {
        var f := funcs[k];
        assert f in funcs && funcs[..k + 1] == funcs[..k] + [f];
        is_pure := is_pure[f := !TriviallyImpure(m[f])];
        if !is_pure[f] {
          worklist := worklist + [f];
        }
      }
      assert funcs[..|funcs|] == funcs;
      forall f | f in m && !is_pure[f]
        ensures Impure(m, f)
      {
        TrivialIsImpure(m, f);
      }
    }

    /** Marks the callers of func. */
    method Process(func: nat)
      requires UseLists() && func in m && func in is_pure && !is_pure[func] && Spreading(m, is_pure, worklist + [func])
      modifies this
      ensures Spreading(m, is_pure, worklist)
      ensures Weight(is_pure, worklist) <= old(Weight(is_pure, worklist))
    {
      var callers := users[func];
      for k := 0 to |callers|
        invariant Spreading(m, is_pure, worklist + [func]) &&
          Weight(is_pure, worklist) <= old(Weight(is_pure, worklist))
        invariant Marked(is_pure, [func] + callers[..k])
      {
        MarkCaller(func, callers, k);
      }
      AllMarked(m, is_pure, callers, func);
      SpreadDone(m, is_pure, worklist, func);
    }

    method MarkCaller(func: nat, callers: seq<nat>, k: nat)
      requires Spreading(m, is_pure, worklist + [func]) && func in m && k < |callers| &&
        Marked(is_pure, [func] + callers[..k])
      requires forall g :: g in callers <==> Calls(m, g, func)
      modifies this
      ensures Spreading(m, is_pure, worklist + [func]) && Marked(is_pure, [func] + callers[..k + 1])
      ensures Weight(is_pure, worklist) <= old(Weight(is_pure, worklist))
    {
      var caller := callers[k];
      assert caller in callers;
      MarkedMore(is_pure, [func] + callers[..k], caller);
      assert [func] + callers[..k + 1] == [func] + callers[..k] + [caller];
      if is_pure[caller] {
        FewerPure(is_pure, caller);
        Spreads(m, is_pure, worklist, func, caller);
        is_pure := is_pure[caller := false];
        worklist := worklist + [caller];
      }
    }

    /** Afterwards a function is pure exactly when no chain of calls leads to an impure one. */
    method Run(funcs: seq<nat>)
      requires UseLists() && (forall f :: f in funcs <==> f in m) && is_pure == map[] && worklist == []
      modifies this
      ensures is_pure.Keys == m.Keys && forall f :: f in m ==> (is_pure[f] <==> !Impure(m, f))
    {
      TrivialMark(funcs);
      while worklist != []
        invariant Spreading(m, is_pure, worklist)
        decreases Weight(is_pure, worklist)
      {
        var now := worklist[0];
        SpreadingRotates(m, is_pure, worklist);
        worklist := worklist[1..];
        Process(now);
      }
      SpreadingEnds(m, is_pure);
    }
  }

  lemma SpreadingRotates(m: Module, is_pure: map<nat, bool>, work: seq<nat>)
    requires work != [] && Spreading(m, is_pure, work)
    ensures Spreading(m, is_pure, work[1..] + [work[0]]) && work[0] in m && !is_pure[work[0]]
  {
    assert forall f :: f in work[1..] + [work[0]] <==> f in work;
  }

  lemma Spreads(m: Module, is_pure: map<nat, bool>, work: seq<nat>, func: nat, caller: nat)
    requires Spreading(m, is_pure, work + [func]) && Calls(m, caller, func) && func in m && !is_pure[func]
    ensures Spreading(m, is_pure[caller := false], work + [caller] + [func])
  {
    CallerIsImpure(m, caller, func);
    assert forall f :: f in work + [caller] + [func] <==> f in work + [func] || f == caller;
    OneMoreSoundly(m, is_pure, caller);
    OneMoreMarked(m, is_pure, work + [func], work + [caller] + [func], caller);
  }

  lemma OneMoreSoundly(m: Module, is_pure: map<nat, bool>, caller: nat)
    requires is_pure.Keys == m.Keys && SoundlyMarked(m, is_pure) && caller in m && Impure(m, caller)
    ensures SoundlyMarked(m, is_pure[caller := false])
  {
  }

  lemma OneMoreMarked(m: Module, is_pure: map<nat, bool>, work: seq<nat>, work': seq<nat>, caller: nat)
    requires is_pure.Keys == m.Keys && CallersMarked(m, is_pure, work) && caller in m
    requires forall f :: f in work' <==> f in work || f == caller
    ensures CallersMarked(m, is_pure[caller := false], work')
  {
  }

  lemma SpreadDone(m: Module, is_pure: map<nat, bool>, work: seq<nat>, func: nat)
    requires Spreading(m, is_pure, work + [func]) && func in m && forall g :: Calls(m, g, func) ==>
      g in is_pure && !is_pure[g]
    ensures Spreading(m, is_pure, work)
  {
    assert forall f :: f in work + [func] <==> f in work || f == func;
  }
}
