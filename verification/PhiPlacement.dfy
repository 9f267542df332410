// Where phi instructions go: the iterated dominance frontier of the blocks that define a
// variable, found with a queue.

module PhiPlacement {

  type Frontier = map<nat, set<nat>>

  /** Every frontier of a defining block, and of a block with a phi, is in s. */
  ghost predicate Closed(df: Frontier, defs: set<nat>, s: set<nat>) {
    forall b :: (b in defs || b in s) && b in df ==> df[b] <= s
  }

  /** s is the least such set. */
  ghost predicate Iterated(df: Frontier, defs: set<nat>, s: set<nat>) {
    Closed(df, defs, s) && forall c :: Closed(df, defs, c) ==> s <= c
  }

  lemma IteratedUnique(df: Frontier, defs: set<nat>, s: set<nat>, s': set<nat>)
    requires Iterated(df, defs, s) && Iterated(df, defs, s')
    ensures s == s'
  {
    assert s <= s' && s' <= s;
  }

  ghost predicate OverBlocks(df: Frontier) {
    forall b :: b in df ==> df[b] <= df.Keys
  }

  /** What holds between two turns: a block whose frontier may be missing is in the queue. */
  ghost predicate Placing(df: Frontier, defs: set<nat>, queue: seq<nat>, pos: set<nat>) {
    && pos <= df.Keys
    && (forall b :: b in queue ==> b in defs || b in pos)
    && (forall b :: (b in defs || b in pos) && b !in queue ==> b in df && df[b] <= pos)
    && (forall c :: Closed(df, defs, c) ==> pos <= c)
  }

  lemma PlacingOne(df: Frontier, defs: set<nat>, c: set<nat>, b: nat, f: nat, pos: set<nat>)
    requires Closed(df, defs, c) && pos <= c && (b in defs || b in pos) && b in df && f in df[b]
    ensures f in c
  {
  }

  /** The block at the head has been dealt with: its frontier is all in pos', and what is new
      there has been put on the queue, unless it is the variable's home, which was there before. */
  lemma PlacingStep(df: Frontier, defs: set<nat>, home: nat, queue: seq<nat>, pos: set<nat>, queue': seq<nat>,
                    pos': set<nat>)
    requires Placing(df, defs, queue, pos) && queue != [] && queue[0] in df && OverBlocks(df)
    requires pos' == pos + df[queue[0]]
    requires forall b :: b in queue' <==> b in queue[1..] || (b in df[queue[0]] && b !in pos && b != home)
    requires home in queue[1..] || home == queue[0] || (home in df && df[home] <= pos)
    ensures Placing(df, defs, queue', pos')
  {
    forall c | Closed(df, defs, c)
      ensures pos' <= c
    {
      forall f | f in df[queue[0]] ensures f in c {
        PlacingOne(df, defs, c, queue[0], f, pos);
      }
    }
    assert queue == [queue[0]] + queue[1..];
    forall b | (b in defs || b in pos') && b !in queue'
      ensures b in df && df[b] <= pos'
    {
    }
  }

  /** The phi blocks of one variable; defs lists the blocks of its stores. */
  method PlacePhis(df: Frontier, stores: seq<nat>, home: nat) returns (insert_pos: set<nat>)
    requires OverBlocks(df) && home in df && forall b :: b in stores ==> b in df
    ensures Iterated(df, (set b | b in stores) + {home}, insert_pos)
  {
    insert_pos := {};
    var define_pos := stores + [home];
    ghost var defs := (set b | b in stores) + {home};
    while define_pos != []
      invariant Placing(df, defs, define_pos, insert_pos)
      invariant home in define_pos || df[home] <= insert_pos
      decreases df.Keys - insert_pos, |define_pos|
    {
      var bb := define_pos[0];
      ghost var queue, pos := define_pos, insert_pos;
      define_pos := define_pos[1..];
      var rest := df[bb];
      while rest != {}
        invariant rest <= df[bb] && insert_pos == pos + (df[bb] - rest)
        invariant forall b :: b in define_pos <==> b in queue[1..] || (b in df[bb] - rest && b !in pos && b != home)
        invariant insert_pos == pos ==> define_pos == queue[1..]
        decreases rest
      {
        var frontier :| frontier in rest;
        if frontier !in insert_pos {
          insert_pos := insert_pos + {frontier};
          if frontier != home {
            define_pos := define_pos + [frontier];
          }
        }
        rest := rest - {frontier};
      }
      PlacingStep(df, defs, home, queue, pos, define_pos, insert_pos);
    }
  }

  /** A variable that is written in its home block alone needs no phi. */
  method GeneratePhi(df: Frontier, stores: seq<nat>, home: nat) returns (insert_pos: set<nat>)
    requires OverBlocks(df) && home in df && forall b :: b in stores ==> b in df
    ensures if (forall b :: b in stores ==> b == home) then insert_pos == {}
            else Iterated(df, (set b | b in stores) + {home}, insert_pos)
  {
    var used_bb := (set b | b in stores) + {home};
    HomeAlone(stores, home);
    if |used_bb| > 1 {
      insert_pos := PlacePhis(df, stores, home);
    } else {
      insert_pos := {};
    }
  }

  lemma HomeAlone(stores: seq<nat>, home: nat)
    ensures (forall b :: b in stores ==> b == home) <==> |(set b | b in stores) + {home}| <= 1
  {
    var s := (set b | b in stores) + {home};
    if b :| b in stores && b != home {
      assert s == (s - {b, home}) + {b, home};
      assert |s| >= |{b, home}|;
    } else {
      assert s == {home};
    }
  }
}
