/** The shape of one position update across the published zooms. */
module UpdateShape {
  import opened Payloads
  import opened MemberTracking
  import opened Tiles

  /** How many of the zooms, from the coarsest, see both positions on one tile. */
  function FirstSplit(cfg: Config, zooms: seq<nat>, was: Pos, pos: Pos): (m: nat)
    ensures m <= |zooms|
  {
    if zooms == [] || cfg.tileAt(zooms[0], was) != cfg.tileAt(zooms[0], pos) then 0
    else 1 + FirstSplit(cfg, zooms[1..], was, pos)
  }

  /** Once two positions are on different tiles they are so at every finer zoom. */
  lemma {:induction false} SplitStays(cfg: Config, zooms: seq<nat>, was: Pos, pos: Pos, i: nat)
    requires Nested(cfg.tileAt) && Ascending(zooms) && i < |zooms|
    ensures cfg.tileAt(zooms[i], was) == cfg.tileAt(zooms[i], pos) <==> i < FirstSplit(cfg, zooms, was, pos)
  {
    if zooms[0] <= zooms[i] && cfg.tileAt(zooms[i], was) == cfg.tileAt(zooms[i], pos) {
      assert cfg.tileAt(zooms[0], was) == cfg.tileAt(zooms[0], pos);
    }
    if i > 0 && cfg.tileAt(zooms[0], was) == cfg.tileAt(zooms[0], pos) {
      SplitStays(cfg, zooms[1..], was, pos, i - 1);
    }
  }

  /** The i-th message of an update: a `move` for each zoom before the first split at m, then a
      `remove` and an `add` for each zoom from there on. */
  function ShapeAt(cfg: Config, zooms: seq<nat>, id: Id, was: Pos, pos: Pos, attrs: Attrs, m: nat, i: nat): Op
    requires m <= |zooms| && i < |zooms| + (|zooms| - m)
  {
    if i < m then Op(cfg.tileAt(zooms[i], pos), Move(id, pos))
    else
      var z := zooms[m + (i - m) / 2];
      if (i - m) % 2 == 0 then Op(cfg.tileAt(z, was), Remove(id)) else Op(cfg.tileAt(z, pos), Add(id, pos, attrs))
  }

  /** The first m of the zooms see both positions on one tile, the others on two. */
  ghost predicate SplitsAt(cfg: Config, zooms: seq<nat>, was: Pos, pos: Pos, m: nat) {
    m <= |zooms| && forall i :: 0 <= i < |zooms| ==> (cfg.tileAt(zooms[i], was) == cfg.tileAt(zooms[i], pos) <==> i < m)
  }

  lemma {:induction false} UpdateCount(cfg: Config, zooms: seq<nat>, id: Id, was: Pos, pos: Pos, attrs: Attrs, m: nat)
    requires SplitsAt(cfg, zooms, was, pos, m)
    ensures |WriteOps(cfg, zooms, id, Some(was), pos, attrs)| == |zooms| + (|zooms| - m)
  {
    if zooms != [] {
      UpdateCount(cfg, zooms[1..], id, was, pos, attrs, if m > 0 then m - 1 else 0);
    }
  }

  lemma ShapeTail(cfg: Config, zooms: seq<nat>, id: Id, was: Pos, pos: Pos, attrs: Attrs, m: nat, i: nat)
    requires 0 < |zooms| && m <= |zooms| && i < |zooms| + (|zooms| - m)
    ensures m > 0 && i >= 1 ==>
      ShapeAt(cfg, zooms, id, was, pos, attrs, m, i) == ShapeAt(cfg, zooms[1..], id, was, pos, attrs, m - 1, i - 1)
    ensures m == 0 && i >= 2 ==>
      ShapeAt(cfg, zooms, id, was, pos, attrs, 0, i) == ShapeAt(cfg, zooms[1..], id, was, pos, attrs, 0, i - 2)
  {
    if m > 0 && i >= m {
      assert zooms[1..][m - 1 + (i - m) / 2] == zooms[m + (i - m) / 2];
    } else if m == 0 && i >= 2 {
      assert zooms[1..][(i - 2) / 2] == zooms[i / 2];
    }
  }

  lemma {:induction false} UpdateAt(cfg: Config, zooms: seq<nat>, id: Id, was: Pos, pos: Pos, attrs: Attrs, m: nat,
                                    i: nat)
    requires SplitsAt(cfg, zooms, was, pos, m) && i < |zooms| + (|zooms| - m)
    ensures i < |WriteOps(cfg, zooms, id, Some(was), pos, attrs)|
    ensures WriteOps(cfg, zooms, id, Some(was), pos, attrs)[i] == ShapeAt(cfg, zooms, id, was, pos, attrs, m, i)
  {
    var first := OpsAtZoom(cfg, id, Some(was), pos, attrs, zooms[0]);
    UpdateCount(cfg, zooms, id, was, pos, attrs, m);
    if i < |first| {
      assert first[i] == ShapeAt(cfg, zooms, id, was, pos, attrs, m, i);
    } else if m > 0 {
      UpdateAt(cfg, zooms[1..], id, was, pos, attrs, m - 1, i - 1);
      ShapeTail(cfg, zooms, id, was, pos, attrs, m, i);
    } else {
      UpdateAt(cfg, zooms[1..], id, was, pos, attrs, 0, i - 2);
      ShapeTail(cfg, zooms, id, was, pos, attrs, 0, i);
    }
  }

  /** A GEOADD of a member that has a position, over ascending zooms: moves, then swaps, one message
      per zoom and one more for each zoom at or beyond the first split. */
  lemma MovesThenSwaps(cfg: Config, zooms: seq<nat>, id: Id, was: Pos, pos: Pos, attrs: Attrs)
    requires Nested(cfg.tileAt) && Ascending(zooms)
    ensures var m := FirstSplit(cfg, zooms, was, pos);
            var ops := WriteOps(cfg, zooms, id, Some(was), pos, attrs);
            && SplitsAt(cfg, zooms, was, pos, m)
            && |ops| == |zooms| + (|zooms| - m)
            && (forall i :: 0 <= i < |ops| ==> ops[i] == ShapeAt(cfg, zooms, id, was, pos, attrs, m, i))
  {
    var m := FirstSplit(cfg, zooms, was, pos);
    var ops := WriteOps(cfg, zooms, id, Some(was), pos, attrs);
    forall i | 0 <= i < |zooms| {
      SplitStays(cfg, zooms, was, pos, i);
    }
    UpdateCount(cfg, zooms, id, was, pos, attrs, m);
    forall i | 0 <= i < |ops| ensures ops[i] == ShapeAt(cfg, zooms, id, was, pos, attrs, m, i) {
      UpdateAt(cfg, zooms, id, was, pos, attrs, m, i);
    }
  }
}
