// The layout of a stack frame: local variables and spilled registers, below the frame's base.

module Frame {
  import opened Machine
  import opened SlotCode

  /** Rounding up, as the compiler does it: add one less than the alignment, clear the low bits. */
  function Align(size: int, alignment: int): (r: int)
    requires alignment == 8 || alignment == 16
    ensures r % alignment == 0 && size <= r < size + alignment
  {
    var s := size + (alignment - 1);
    if alignment == 8 then s - s % 8 else s - s % 16
  }

  /** Clearing the low bits with a mask is taking off the remainder. */
  lemma MasksClear(x: bv32)
    ensures x & !(8 - 1) == x - x % 8
    ensures x & !(16 - 1) == x - x % 16
  {
  }

  /** The bytes from low up to, but not including, high; the base of the frame is 0. */
  datatype Area = Area(low: int, high: int)

  predicate Apart(a: Area, b: Area) { a.high <= b.low || b.high <= a.low }

  predicate Inside(a: Area, size: int) { -size <= a.low <= a.high <= 0 }

  function VarArea(at: map<nat, int>, size: map<nat, int>, v: nat): Area
    requires v in at && v in size
  {
    Area(-at[v], -at[v] + size[v])
  }

  function RegArea(at: map<Reg, int>, r: Reg): Area
    requires r in at
  {
    Area(-at[r], -at[r] + 8)
  }

  ghost predicate Laid(frame_size: int, vars: map<nat, int>, size: map<nat, int>, regs: map<Reg, int>) {
    && 0 <= frame_size && vars.Keys == size.Keys
    && (forall v {:trigger vars[v]} :: v in vars ==> Inside(VarArea(vars, size, v), frame_size) && vars[v] % 16 == 0)
    && (forall r {:trigger regs[r]} :: r in regs ==> Inside(RegArea(regs, r), frame_size) && regs[r] % 8 == 0)
  }

  /** No two variables or registers share a byte. */
  ghost predicate Disjoint(vars: map<nat, int>, size: map<nat, int>, regs: map<Reg, int>)
    requires vars.Keys == size.Keys
  {
    && (forall v, u {:trigger vars[v], vars[u]} :: v in vars && u in vars && v != u ==>
          Apart(VarArea(vars, size, v), VarArea(vars, size, u)))
    && (forall r, q {:trigger regs[r], regs[q]} :: r in regs && q in regs && r != q ==>
          Apart(RegArea(regs, r), RegArea(regs, q)))
    && (forall v, r {:trigger vars[v], regs[r]} :: v in vars && r in regs ==>
          Apart(VarArea(vars, size, v), RegArea(regs, r)))
  }

  lemma AllocaFits(s: int, vars: map<nat, int>, size: map<nat, int>, regs: map<Reg, int>, v: nat, bytes: nat, s': int)
    requires Laid(s, vars, size, regs) && Disjoint(vars, size, regs) && s' >= s + bytes && s' % 16 == 0
    ensures Laid(s', vars[v := s'], size[v := bytes], regs) && Disjoint(vars[v := s'], size[v := bytes], regs)
    ensures VarArea(vars[v := s'], size[v := bytes], v).high <= -s
  {
    var vars', size' := vars[v := s'], size[v := bytes];
    assert VarArea(vars', size', v).high <= -s;
    forall u {:trigger vars'[u]} | u in vars' && u != v
      ensures VarArea(vars', size', u) == VarArea(vars, size, u) && Inside(VarArea(vars, size, u), s) &&
        vars'[u] % 16 == 0
    {
      assert vars'[u] == vars[u];
    }
  }

  class FrameScheduler {
    var frame_size: int
    var alloca_map: map<nat, int>
    var reg_map: map<Reg, int>
    ghost var size: map<nat, int>

    ghost predicate Valid()
      reads this
    {
      Laid(frame_size, alloca_map, size, reg_map) && Disjoint(alloca_map, size, reg_map)
    }

    constructor ()
      ensures Valid() && alloca_map == map[] && reg_map == map[] && frame_size == 0
    {
      frame_size, alloca_map, reg_map, size := 0, map[], map[], map[];
    }

    method InsertAlloca(val: nat, bytes: nat)
      requires Valid()
      modifies this
      ensures Valid() && old(frame_size) <= frame_size < old(frame_size) + bytes + 16
      ensures alloca_map == old(alloca_map)[val := frame_size] && size == old(size)[val := bytes]
      ensures reg_map == old(reg_map)
      ensures VarArea(alloca_map, size, val).high <= -old(frame_size)
    {
      ghost var s := frame_size;
      frame_size := Align(frame_size + bytes, 16);
      AllocaFits(s, alloca_map, size, reg_map, val, bytes, frame_size);
      alloca_map := alloca_map[val := frame_size];
      size := size[val := bytes];
    }

    method InsertReg(reg: Reg)
      requires Valid()
      modifies this
      ensures Valid() && old(frame_size) + 8 <= frame_size < old(frame_size) + 16
      ensures reg_map == old(reg_map)[reg := frame_size]
      ensures alloca_map == old(alloca_map) && size == old(size)
      ensures RegArea(reg_map, reg).high <= -old(frame_size)
    {
      frame_size := Align(frame_size + 8, 8);
      reg_map := reg_map[reg := frame_size];
    }

    method GetFrameSize() returns (r: int)
      requires Valid()
      modifies this`frame_size
      ensures Valid() && r == frame_size && old(frame_size) <= r < old(frame_size) + 16 && r % 16 == 0
    {
      frame_size := Align(frame_size, 16);
      r := frame_size;
    }
  }

  function SpillsOf(reg_map: map<Reg, int>, spilled: set<Reg>, viaSp: set<Reg>): Spills
    requires spilled <= reg_map.Keys
  {
    Spills(map r | r in spilled :: -reg_map[r], viaSp)
  }

  /** The 8 bytes of every slot lie in the frame, below its base, and share no byte with another
      slot or with a variable. */
  ghost predicate SlotsInFrame(sp: Spills, frame_size: int, vars: map<nat, int>, size: map<nat, int>) {
    && vars.Keys == size.Keys
    && (forall r {:trigger sp.offset[r]} :: r in sp.offset ==>
          -frame_size <= sp.offset[r] && sp.offset[r] + 8 <= 0 && sp.offset[r] % 8 == 0)
    && (forall r, v {:trigger sp.offset[r], vars[v]} :: r in sp.offset && v in vars ==>
          sp.offset[r] + 8 <= -vars[v] || size[v] - vars[v] <= sp.offset[r])
    && (forall r, q {:trigger sp.offset[r], sp.offset[q]} :: r in sp.offset && q in sp.offset && r != q ==>
          sp.offset[r] + 8 <= sp.offset[q] || sp.offset[q] + 8 <= sp.offset[r])
  }

  /** The slots of spilled registers are what the code around them counts on. */
  lemma SlotsOk(frame_size: int, vars: map<nat, int>, size: map<nat, int>, regs: map<Reg, int>, spilled: set<Reg>,
                viaSp: set<Reg>)
    requires Laid(frame_size, vars, size, regs) && Disjoint(vars, size, regs) && Int32(frame_size)
    requires spilled <= regs.Keys && forall r :: r in spilled ==> r.Virt? && r.ty != FloatCmp
    ensures SpillsOk(SpillsOf(regs, spilled, viaSp))
    ensures SlotsInFrame(SpillsOf(regs, spilled, viaSp), frame_size, vars, size)
  {
    var sp := SpillsOf(regs, spilled, viaSp);
    forall r | r in spilled
      ensures Int32(sp.offset[r]) && -frame_size <= sp.offset[r] && sp.offset[r] + 8 <= 0 && sp.offset[r] % 8 == 0
    {
      assert Inside(RegArea(regs, r), frame_size);
    }
    forall r, v | r in spilled && v in vars
      ensures sp.offset[r] + 8 <= -vars[v] || size[v] - vars[v] <= sp.offset[r]
    {
      assert Apart(VarArea(vars, size, v), RegArea(regs, r));
    }
    forall r, q | r in spilled && q in spilled && r != q
      ensures sp.offset[r] + 8 <= sp.offset[q] || sp.offset[q] + 8 <= sp.offset[r]
    {
      assert Apart(RegArea(regs, r), RegArea(regs, q));
    }
  }
}
