/** One member of one GEO set, the tile messages about it that a node has not
    bridged yet, and the feature one client of that node holds for it.

    The invariant is a ledger of debts. An undelivered message, or the client's
    feature, may be out of date; then it demands that a later undelivered message
    makes it good. With nothing undelivered no demand can be met, so the feature is
    exactly what Redis says. */
module MemberTracking {
  import opened Payloads

  /** A tile message about the member at hand. */
  datatype Op = Op(tile: Tile, payload: TilePayload)

  // ---------- The messages a write emits ----------

  function OpsAtZoom(cfg: Config, id: Id, was: Option<Pos>, pos: Pos, attrs: Attrs, z: nat): seq<Op> {
    var there := cfg.tileAt(z, pos);
    if was.None? then [Op(there, Add(id, pos, attrs))]
    else if cfg.tileAt(z, was.value) == there then [Op(there, Move(id, pos))]
    else [Op(cfg.tileAt(z, was.value), Remove(id)), Op(there, Add(id, pos, attrs))]
  }

  /** GEOADD: zoom by zoom, an `add`, a `move`, or a `remove` and an `add`. */
  function WriteOps(cfg: Config, zooms: seq<nat>, id: Id, was: Option<Pos>, pos: Pos, attrs: Attrs): seq<Op> {
    if zooms == [] then []
    else OpsAtZoom(cfg, id, was, pos, attrs, zooms[0]) + WriteOps(cfg, zooms[1..], id, was, pos, attrs)
  }

  /** ZREM of a member that has a position: one `remove` per zoom. */
  function RemoveOps(cfg: Config, zooms: seq<nat>, id: Id, was: Pos): (ops: seq<Op>)
    ensures |ops| == |zooms|
    ensures forall i :: 0 <= i < |zooms| ==> ops[i] == Op(cfg.tileAt(zooms[i], was), Remove(id))
  {
    seq(|zooms|, i requires 0 <= i < |zooms| => Op(cfg.tileAt(zooms[i], was), Remove(id)))
  }

  /** HSET on a member that has a position: one `attr` per zoom. */
  function AttrOps(cfg: Config, zooms: seq<nat>, id: Id, pos: Pos, attrs: Attrs): (ops: seq<Op>)
    ensures |ops| == |zooms|
    ensures forall i :: 0 <= i < |zooms| ==> ops[i] == Op(cfg.tileAt(zooms[i], pos), Attr(id, attrs))
  {
    seq(|zooms|, i requires 0 <= i < |zooms| => Op(cfg.tileAt(zooms[i], pos), Attr(id, attrs)))
  }

  // ---------- The client's side ----------

  /** A message reaches the client only on a tile it subscribes to. */
  function Deliver(slot: Option<Feature>, op: Op, subs: set<Tile>): Option<Feature> {
    if op.tile in subs then Touch(slot, op.payload) else slot
  }

  function DeliverAll(slot: Option<Feature>, ops: seq<Op>, subs: set<Tile>): Option<Feature>
    decreases |ops|
  {
    if ops == [] then slot else DeliverAll(Deliver(slot, ops[0], subs), ops[1..], subs)
  }

  lemma {:induction false} DeliverAllAppend(slot: Option<Feature>, a: seq<Op>, b: seq<Op>, subs: set<Tile>)
    ensures DeliverAll(slot, a + b, subs) == DeliverAll(DeliverAll(slot, a, subs), b, subs)
    decreases |a|
  {
    if a == [] {
      assert a + b == b;
    } else {
      assert (a + b)[1..] == a[1..] + b;
      DeliverAllAppend(Deliver(slot, a[0], subs), a[1..], b, subs);
    }
  }

  /** What a direct query over the subscribed tiles returns for the member. */
  function View(cfg: Config, truth: Option<Pos>, z: nat, subs: set<Tile>): Option<Pos> {
    if truth.Some? && cfg.tileAt(z, truth.value) in subs then truth else None
  }

  function PosOf(slot: Option<Feature>): Option<Pos> {
    if slot.None? then None else Some(slot.value.pos)
  }

  // ---------- Debts ----------

  /** A message that would pay a debt. */
  datatype Want =
    | WantRemove(tile: Tile)
    | WantPut(tile: Tile, pos: Pos)
    | WantAdd(tile: Tile)
    | WantSetter(tile: Tile, key: string, value: string)

  predicate IsPut(p: TilePayload) {
    p.Add? || p.Move?
  }

  predicate Meets(o: Op, w: Want) {
    && o.tile == w.tile
    && match w
       case WantRemove(_) => o.payload.Remove?
       case WantPut(_, pos) => IsPut(o.payload) && o.payload.pos == pos
       case WantAdd(_) => o.payload.Add?
       case WantSetter(_, k, v) =>
         (o.payload.Add? || o.payload.Attr?) && k in o.payload.attrs && o.payload.attrs[k] == v
  }

  ghost predicate Later(q: seq<Op>, from: nat, w: Want) {
    exists j :: from <= j < |q| && Meets(q[j], w)
  }

  predicate Covers(cfg: Config, truth: Option<Pos>, t: Tile) {
    truth.Some? && cfg.tileAt(t.z, truth.value) == t
  }

  /** The debts of an undelivered message, given the member's position and enriched hash in Redis. */
  predicate Demands(cfg: Config, truth: Option<Pos>, hash: Attrs, o: Op, w: Want) {
    match w
    case WantRemove(t) => o.tile == t && !o.payload.Remove? && !Covers(cfg, truth, t)
    case WantPut(t, pos) => o.tile == t && Covers(cfg, truth, t) && truth.value == pos && IsPut(o.payload)
      && o.payload.pos != pos
    case WantAdd(t) => o.payload.Remove? && t.z == o.tile.z && Covers(cfg, truth, t)
    case WantSetter(t, k, v) =>
      && o.tile == t && Covers(cfg, truth, t) && k in hash && hash[k] == v
      && ((o.payload.Add? && !(k in o.payload.attrs && o.payload.attrs[k] == v)) ||
          (o.payload.Attr? && k in o.payload.attrs && o.payload.attrs[k] != v))
  }

  /** The debts of the client's feature. Tiles with a snapshot task under way owe nothing yet. */
  predicate SlotDemands(cfg: Config, truth: Option<Pos>, hash: Attrs, z: nat, live: set<Tile>, slot: Option<Feature>,
                        w: Want)
  {
    && w.tile.z == z
    && match w
       case WantRemove(t) => slot.Some? && cfg.tileAt(z, slot.value.pos) == t && !Covers(cfg, truth, t)
       case WantPut(t, pos) => slot.Some? && cfg.tileAt(z, slot.value.pos) == t && Covers(cfg, truth, t)
         && truth.value == pos && slot.value.pos != pos
       case WantAdd(t) => slot.None? && Covers(cfg, truth, t) && t in live
       case WantSetter(t, k, v) =>
         && slot.Some? && Covers(cfg, truth, t) && t in live && k in hash && hash[k] == v
         && !(k in slot.value.props && slot.value.props[k] == v)
  }

  /** Attribute debts are tracked only in runs where no hash field is ever deleted. */
  predicate InScope(w: Want, full: bool) {
    full || !w.WantSetter?
  }

  /** The shape every emitted message has. */
  predicate WellFormed(cfg: Config, id: Id, hash: Attrs, o: Op, full: bool) {
    && o.tile.z in cfg.zooms
    && o.payload.id == id
    && !o.payload.Snapshot?
    && (IsPut(o.payload) ==> cfg.tileAt(o.tile.z, o.payload.pos) == o.tile)
    && (full && (o.payload.Add? || o.payload.Attr?) ==> o.payload.attrs.Keys <= hash.Keys)
  }

  ghost predicate Coherent(cfg: Config, id: Id, q: seq<Op>, truth: Option<Pos>, hash: Attrs, full: bool) {
    && (forall i :: 0 <= i < |q| ==> WellFormed(cfg, id, hash, q[i], full))
    && (forall i, w {:trigger Demands(cfg, truth, hash, q[i], w)} ::
         0 <= i < |q| && InScope(w, full) && Demands(cfg, truth, hash, q[i], w) ==> Later(q, i + 1, w))
  }

  ghost predicate SlotOk(cfg: Config, q: seq<Op>, truth: Option<Pos>, hash: Attrs, z: nat,
                         subs: set<Tile>, awaiting: set<Tile>, slot: Option<Feature>, full: bool)
  {
    && (slot.Some? ==> cfg.tileAt(z, slot.value.pos) in subs)
    && (full && slot.Some? ==> slot.value.props.Keys <= hash.Keys)
    && (forall w {:trigger SlotDemands(cfg, truth, hash, z, subs - awaiting, slot, w)} ::
         InScope(w, full) && SlotDemands(cfg, truth, hash, z, subs - awaiting, slot, w) ==> Later(q, 0, w))
  }

  // ---------- Looking ahead in a queue ----------

  lemma LaterAppend(a: seq<Op>, b: seq<Op>, from: nat, w: Want)
    requires from <= |a|
    ensures Later(a, from, w) || Later(b, 0, w) ==> Later(a + b, from, w)
  {
    if Later(a, from, w) {
      var j :| from <= j < |a| && Meets(a[j], w);
      assert (a + b)[j] == a[j];
    } else if Later(b, 0, w) {
      var j :| 0 <= j < |b| && Meets(b[j], w);
      assert (a + b)[|a| + j] == b[j];
    }
  }

  lemma LaterInTail(q: seq<Op>, from: nat, w: Want)
    requires q != []
    ensures Later(q, from + 1, w) <==> Later(q[1..], from, w)
  {
    if Later(q, from + 1, w) {
      var j :| from + 1 <= j < |q| && Meets(q[j], w);
      assert q[1..][j - 1] == q[j];
    }
  }

  // ---------- Appending what a write emits ----------

  /** A batch pays every debt that the write creates in a well-formed queue. */
  ghost predicate Pays(cfg: Config, id: Id, b: seq<Op>, truth: Option<Pos>, hash: Attrs, truth': Option<Pos>,
                       hash': Attrs, full: bool)
  {
    forall o, w :: InScope(w, full) && WellFormed(cfg, id, hash, o, full) && Demands(cfg, truth', hash', o, w)
      && !Demands(cfg, truth, hash, o, w)
      ==> Later(b, 0, w)
  }

  lemma CoherentAppend(cfg: Config, id: Id, q: seq<Op>, b: seq<Op>, truth: Option<Pos>, hash: Attrs,
                       truth': Option<Pos>, hash': Attrs, full: bool)
    requires Coherent(cfg, id, q, truth, hash, full) && Coherent(cfg, id, b, truth', hash', full)
    requires Pays(cfg, id, b, truth, hash, truth', hash', full)
    requires full ==> hash.Keys <= hash'.Keys
    ensures Coherent(cfg, id, q + b, truth', hash', full)
  {
    forall i, w | 0 <= i < |q + b| && InScope(w, full) && Demands(cfg, truth', hash', (q + b)[i], w)
      ensures Later(q + b, i + 1, w)
    {
      if i < |q| {
        assert (q + b)[i] == q[i];
        LaterAppend(q, b, i + 1, w);
      } else {
        var k := i - |q|;
        assert (q + b)[i] == b[k];
        var j :| k + 1 <= j < |b| && Meets(b[j], w);
        assert (q + b)[|q| + j] == b[j];
      }
    }
  }

  /** The same for the client's feature. */
  ghost predicate SlotPays(cfg: Config, b: seq<Op>, truth: Option<Pos>, hash: Attrs, truth': Option<Pos>, hash': Attrs,
                           z: nat, subs: set<Tile>, awaiting: set<Tile>, slot: Option<Feature>, full: bool)
  {
    forall w :: InScope(w, full)
      && SlotDemands(cfg, truth', hash', z, subs - awaiting, slot, w)
        && !SlotDemands(cfg, truth, hash, z, subs - awaiting, slot, w)
      ==> Later(b, 0, w)
  }

  lemma SlotAppend(cfg: Config, q: seq<Op>, b: seq<Op>, truth: Option<Pos>, hash: Attrs, truth': Option<Pos>,
                   hash': Attrs, z: nat, subs: set<Tile>, awaiting: set<Tile>, slot: Option<Feature>, full: bool)
    requires SlotOk(cfg, q, truth, hash, z, subs, awaiting, slot, full)
    requires SlotPays(cfg, b, truth, hash, truth', hash', z, subs, awaiting, slot, full)
    requires full ==> hash.Keys <= hash'.Keys
    ensures SlotOk(cfg, q + b, truth', hash', z, subs, awaiting, slot, full)
  {
    forall w | InScope(w, full) && SlotDemands(cfg, truth', hash', z, subs - awaiting, slot, w)
      ensures Later(q + b, 0, w)
    {
      LaterAppend(q, b, 0, w);
    }
  }

  // ---------- GEOADD ----------

  lemma {:induction false} WriteOpsAtZoom(cfg: Config, zooms: seq<nat>, id: Id, was: Option<Pos>, pos: Pos,
                                          attrs: Attrs, z: nat, w: Want)
    requires z in zooms && Later(OpsAtZoom(cfg, id, was, pos, attrs, z), 0, w)
    ensures Later(WriteOps(cfg, zooms, id, was, pos, attrs), 0, w)
  {
    var first := OpsAtZoom(cfg, id, was, pos, attrs, zooms[0]);
    var rest := WriteOps(cfg, zooms[1..], id, was, pos, attrs);
    if zooms[0] != z {
      WriteOpsAtZoom(cfg, zooms[1..], id, was, pos, attrs, z, w);
    }
    LaterAppend(first, rest, 0, w);
  }

  lemma OpsAtZoomCoherent(cfg: Config, id: Id, was: Option<Pos>, pos: Pos, hash: Attrs, z: nat, full: bool)
    requires ValidConfig(cfg) && z in cfg.zooms
    ensures Coherent(cfg, id, OpsAtZoom(cfg, id, was, pos, hash, z), Some(pos), hash, full)
  {
    var b := OpsAtZoom(cfg, id, was, pos, hash, z);
    forall i, w | 0 <= i < |b| && InScope(w, full) && Demands(cfg, Some(pos), hash, b[i], w)
      ensures Later(b, i + 1, w)
    {
      assert i == 0 && |b| == 2 && Meets(b[1], w);
    }
  }

  lemma {:induction false} WriteOpsCoherent(cfg: Config, zooms: seq<nat>, id: Id, was: Option<Pos>, pos: Pos,
                                            hash: Attrs, full: bool)
    requires ValidConfig(cfg) && forall z :: z in zooms ==> z in cfg.zooms
    ensures Coherent(cfg, id, WriteOps(cfg, zooms, id, was, pos, hash), Some(pos), hash, full)
  {
    if zooms != [] {
      OpsAtZoomCoherent(cfg, id, was, pos, hash, zooms[0], full);
      WriteOpsCoherent(cfg, zooms[1..], id, was, pos, hash, full);
      CoherentAppend(cfg, id, OpsAtZoom(cfg, id, was, pos, hash, zooms[0]),
                     WriteOps(cfg, zooms[1..], id, was, pos, hash),
                     Some(pos), hash, Some(pos), hash, full);
    }
  }

  /** The messages of one zoom pay whatever the write newly demands there. */
  lemma OpsAtZoomMeet(cfg: Config, id: Id, was: Option<Pos>, pos: Pos, hash: Attrs, z: nat, w: Want)
    requires ValidConfig(cfg) && w.tile.z == z
    requires match w
             case WantRemove(t) => Covers(cfg, was, t) && !Covers(cfg, Some(pos), t)
             case WantPut(t, p) => Covers(cfg, Some(pos), t) && p == pos
             case WantAdd(t) => !Covers(cfg, was, t) && Covers(cfg, Some(pos), t)
             case WantSetter(t, k, v) => !Covers(cfg, was, t) && Covers(cfg, Some(pos), t) && k in hash && hash[k] == v
    ensures Later(OpsAtZoom(cfg, id, was, pos, hash, z), 0, w)
  {
    var b := OpsAtZoom(cfg, id, was, pos, hash, z);
    assert Meets(b[0], w) || (|b| == 2 && Meets(b[1], w));
  }

  lemma WritePays(cfg: Config, id: Id, was: Option<Pos>, pos: Pos, hash: Attrs, full: bool)
    requires ValidConfig(cfg)
    ensures Pays(cfg, id, WriteOps(cfg, cfg.zooms, id, was, pos, hash), was, hash, Some(pos), hash, full)
  {
    forall o, w | InScope(w, full) && WellFormed(cfg, id, hash, o, full)
      && Demands(cfg, Some(pos), hash, o, w) && !Demands(cfg, was, hash, o, w)
      ensures Later(WriteOps(cfg, cfg.zooms, id, was, pos, hash), 0, w)
    {
      OpsAtZoomMeet(cfg, id, was, pos, hash, w.tile.z, w);
      WriteOpsAtZoom(cfg, cfg.zooms, id, was, pos, hash, w.tile.z, w);
    }
  }

  lemma WriteSlotPays(cfg: Config, id: Id, was: Option<Pos>, pos: Pos, hash: Attrs,
                      z: nat, subs: set<Tile>, awaiting: set<Tile>, slot: Option<Feature>, full: bool)
    requires ValidConfig(cfg) && z in cfg.zooms
    ensures SlotPays(cfg, WriteOps(cfg, cfg.zooms, id, was, pos, hash), was, hash, Some(pos), hash, z, subs, awaiting,
                     slot, full)
  {
    forall w | InScope(w, full)
      && SlotDemands(cfg, Some(pos), hash, z, subs - awaiting, slot, w)
        && !SlotDemands(cfg, was, hash, z, subs - awaiting, slot, w)
      ensures Later(WriteOps(cfg, cfg.zooms, id, was, pos, hash), 0, w)
    {
      OpsAtZoomMeet(cfg, id, was, pos, hash, w.tile.z, w);
      WriteOpsAtZoom(cfg, cfg.zooms, id, was, pos, hash, w.tile.z, w);
    }
  }

  // ---------- ZREM ----------

  lemma RemoveOpsFacts(cfg: Config, id: Id, was: Pos, hash: Attrs, z: nat, subs: set<Tile>, awaiting: set<Tile>,
                       slot: Option<Feature>, full: bool)
    requires ValidConfig(cfg)
    ensures Coherent(cfg, id, RemoveOps(cfg, cfg.zooms, id, was), None, hash, full)
    ensures Pays(cfg, id, RemoveOps(cfg, cfg.zooms, id, was), Some(was), hash, None, hash, full)
    ensures z in cfg.zooms ==>
        SlotPays(cfg, RemoveOps(cfg, cfg.zooms, id, was), Some(was), hash, None, hash, z, subs, awaiting, slot, full)
  {
    var b := RemoveOps(cfg, cfg.zooms, id, was);
    forall w: Want | w.WantRemove? && w.tile.z in cfg.zooms && Covers(cfg, Some(was), w.tile)
      ensures Later(b, 0, w)
    {
      var i :| 0 <= i < |cfg.zooms| && cfg.zooms[i] == w.tile.z;
      assert Meets(b[i], w);
    }
  }

  // ---------- HSET ----------

  /** An HSET of enriched fields on a member of the set. */
  lemma AttrOpsFacts(cfg: Config, id: Id, pos: Pos, hash: Attrs, delta: Attrs,
                     z: nat, subs: set<Tile>, awaiting: set<Tile>, slot: Option<Feature>, full: bool)
    requires ValidConfig(cfg)
    ensures Coherent(cfg, id, AttrOps(cfg, cfg.zooms, id, pos, delta), Some(pos), hash + delta, full)
    ensures Pays(cfg, id, AttrOps(cfg, cfg.zooms, id, pos, delta), Some(pos), hash, Some(pos), hash + delta, full)
    ensures z in cfg.zooms ==>
        SlotPays(cfg, AttrOps(cfg, cfg.zooms, id, pos, delta), Some(pos), hash, Some(pos), hash + delta, z, subs,
                 awaiting, slot, full)
  {
    var b := AttrOps(cfg, cfg.zooms, id, pos, delta);
    forall w: Want | w.WantSetter? && w.tile.z in cfg.zooms && Covers(cfg, Some(pos), w.tile) && w.key in delta
      && delta[w.key] == w.value
      ensures Later(b, 0, w)
    {
      var i :| 0 <= i < |cfg.zooms| && cfg.zooms[i] == w.tile.z;
      assert Meets(b[i], w);
    }
  }

  /** Hash changes that no tile message reports: those of a member without a position, or,
      where attributes are not tracked, any. */
  lemma HashUnreported(cfg: Config, id: Id, q: seq<Op>, truth: Option<Pos>, hash: Attrs, hash': Attrs,
                       z: nat, subs: set<Tile>, awaiting: set<Tile>, slot: Option<Feature>, full: bool)
    requires Coherent(cfg, id, q, truth, hash, full)
    requires full ==> truth.None? && hash.Keys <= hash'.Keys
    ensures Coherent(cfg, id, q, truth, hash', full)
    ensures SlotOk(cfg, q, truth, hash, z, subs, awaiting, slot, full) ==>
        SlotOk(cfg, q, truth, hash', z, subs, awaiting, slot, full)
  {
    assert q + [] == q;
    CoherentAppend(cfg, id, q, [], truth, hash, truth, hash', full);
    if SlotOk(cfg, q, truth, hash, z, subs, awaiting, slot, full) {
      SlotAppend(cfg, q, [], truth, hash, truth, hash', z, subs, awaiting, slot, full);
    }
  }

  // ---------- Bridging one message ----------

  lemma CoherentTail(cfg: Config, id: Id, q: seq<Op>, truth: Option<Pos>, hash: Attrs, full: bool)
    requires q != [] && Coherent(cfg, id, q, truth, hash, full)
    ensures Coherent(cfg, id, q[1..], truth, hash, full)
  {
    forall i, w | 0 <= i < |q[1..]| && InScope(w, full) && Demands(cfg, truth, hash, q[1..][i], w)
      ensures Later(q[1..], i + 1, w)
    {
      assert q[1..][i] == q[i + 1];
      LaterInTail(q, i + 1, w);
    }
  }

  /** An undelivered `add` on the member's own tile is followed by the current value of every field. */
  lemma AddBringsField(cfg: Config, id: Id, q: seq<Op>, truth: Option<Pos>, hash: Attrs, from: nat, w: Want)
    requires Coherent(cfg, id, q, truth, hash, true)
    requires w.WantSetter? && Covers(cfg, truth, w.tile) && w.key in hash && hash[w.key] == w.value
    requires Later(q, from, WantAdd(w.tile))
    ensures Later(q, from, w)
  {
    var j :| from <= j < |q| && Meets(q[j], WantAdd(w.tile));
    if !Meets(q[j], w) {
      assert Demands(cfg, truth, hash, q[j], w);
    }
  }

  /** After any undelivered message on another tile of the same zoom, the member is added to its own tile again. */
  lemma ElsewhereBringsAdd(cfg: Config, id: Id, q: seq<Op>, truth: Option<Pos>, hash: Attrs, full: bool, i: nat,
                           t: Tile)
    requires Coherent(cfg, id, q, truth, hash, full)
    requires i < |q| && q[i].tile != t && q[i].tile.z == t.z && Covers(cfg, truth, t)
    ensures Later(q, i + 1, WantAdd(t))
  {
    if q[i].payload.Remove? {
      assert Demands(cfg, truth, hash, q[i], WantAdd(t));
    } else {
      assert Demands(cfg, truth, hash, q[i], WantRemove(q[i].tile));
      var j :| i + 1 <= j < |q| && Meets(q[j], WantRemove(q[i].tile));
      assert Demands(cfg, truth, hash, q[j], WantAdd(t));
    }
  }

  /** Debts of the feature after the head is delivered, other than attribute debts. */
  lemma DeliverPositionDebts(cfg: Config, id: Id, q: seq<Op>, truth: Option<Pos>, hash: Attrs,
                             z: nat, subs: set<Tile>, awaiting: set<Tile>, slot: Option<Feature>, full: bool, w: Want)
    requires q != [] && Coherent(cfg, id, q, truth, hash, full)
    requires SlotOk(cfg, q, truth, hash, z, subs, awaiting, slot, full)
    requires forall t :: t in subs ==> t.z == z
    requires !w.WantSetter? && SlotDemands(cfg, truth, hash, z, subs - awaiting, Deliver(slot, q[0], subs), w)
    ensures Later(q, 1, w)
  {
    var o := q[0];
    var after := Deliver(slot, o, subs);
    if SlotDemands(cfg, truth, hash, z, subs - awaiting, slot, w) {
      var j :| 0 <= j < |q| && Meets(q[j], w);
      assert j != 0;
    } else {
      assert Demands(cfg, truth, hash, o, w);
    }
  }

  lemma DeliverAttributeDebts(cfg: Config, id: Id, q: seq<Op>, truth: Option<Pos>, hash: Attrs,
                              z: nat, subs: set<Tile>, awaiting: set<Tile>, slot: Option<Feature>, w: Want)
    requires q != [] && Coherent(cfg, id, q, truth, hash, true)
    requires SlotOk(cfg, q, truth, hash, z, subs, awaiting, slot, true)
    requires forall t :: t in subs ==> t.z == z
    requires w.WantSetter? && SlotDemands(cfg, truth, hash, z, subs - awaiting, Deliver(slot, q[0], subs), w)
    ensures Later(q, 1, w)
  {
    var o := q[0];
    if o.tile in subs && o.tile != w.tile {
      ElsewhereBringsAdd(cfg, id, q, truth, hash, true, 0, w.tile);
      AddBringsField(cfg, id, q, truth, hash, 1, w);
    } else if SlotDemands(cfg, truth, hash, z, subs - awaiting, slot, w) {
      if !Demands(cfg, truth, hash, o, w) {
        var j :| 0 <= j < |q| && Meets(q[j], w);
        assert j != 0;
      }
    } else if slot.None? && o.payload.Move? {
      assert SlotDemands(cfg, truth, hash, z, subs - awaiting, slot, WantAdd(w.tile));
      var j :| 0 <= j < |q| && Meets(q[j], WantAdd(w.tile));
      assert j != 0;
      AddBringsField(cfg, id, q, truth, hash, 1, w);
    } else {
      assert Demands(cfg, truth, hash, o, w);
    }
  }

  lemma DeliverHead(cfg: Config, id: Id, q: seq<Op>, truth: Option<Pos>, hash: Attrs,
                    z: nat, subs: set<Tile>, awaiting: set<Tile>, slot: Option<Feature>, full: bool)
    requires q != [] && Coherent(cfg, id, q, truth, hash, full)
    requires SlotOk(cfg, q, truth, hash, z, subs, awaiting, slot, full)
    requires forall t :: t in subs ==> t.z == z
    ensures Coherent(cfg, id, q[1..], truth, hash, full)
    ensures SlotOk(cfg, q[1..], truth, hash, z, subs, awaiting, Deliver(slot, q[0], subs), full)
  {
    CoherentTail(cfg, id, q, truth, hash, full);
    var after := Deliver(slot, q[0], subs);
    assert WellFormed(cfg, id, hash, q[0], full);
    forall w | InScope(w, full) && SlotDemands(cfg, truth, hash, z, subs - awaiting, after, w)
      ensures Later(q[1..], 0, w)
    {
      if w.WantSetter? {
        DeliverAttributeDebts(cfg, id, q, truth, hash, z, subs, awaiting, slot, w);
      } else {
        DeliverPositionDebts(cfg, id, q, truth, hash, z, subs, awaiting, slot, full, w);
      }
      LaterInTail(q, 0, w);
    }
  }

  lemma {:induction false} DeliverQueue(cfg: Config, id: Id, q: seq<Op>, truth: Option<Pos>, hash: Attrs,
                                        z: nat, subs: set<Tile>, awaiting: set<Tile>, slot: Option<Feature>, full: bool)
    requires Coherent(cfg, id, q, truth, hash, full)
    requires SlotOk(cfg, q, truth, hash, z, subs, awaiting, slot, full)
    requires forall t :: t in subs ==> t.z == z
    ensures SlotOk(cfg, [], truth, hash, z, subs, awaiting, DeliverAll(slot, q, subs), full)
    decreases |q|
  {
    if q != [] {
      DeliverHead(cfg, id, q, truth, hash, z, subs, awaiting, slot, full);
      DeliverQueue(cfg, id, q[1..], truth, hash, z, subs, awaiting, Deliver(slot, q[0], subs), full);
    }
  }

  // ---------- Local delivery, snapshots and viewport changes ----------

  /** A write's own node delivers at once. With nothing undelivered about the member this
      is the same as appending the messages and bridging them. */
  lemma DeliverLocally(cfg: Config, id: Id, b: seq<Op>, truth: Option<Pos>, hash: Attrs, truth': Option<Pos>,
                       hash': Attrs, z: nat, subs: set<Tile>, awaiting: set<Tile>, slot: Option<Feature>, full: bool)
    requires SlotOk(cfg, [], truth, hash, z, subs, awaiting, slot, full)
    requires SlotPays(cfg, b, truth, hash, truth', hash', z, subs, awaiting, slot, full)
    requires Coherent(cfg, id, b, truth', hash', full)
    requires full ==> hash.Keys <= hash'.Keys
    requires forall t :: t in subs ==> t.z == z
    ensures SlotOk(cfg, [], truth', hash', z, subs, awaiting, DeliverAll(slot, b, subs), full)
  {
    SlotAppend(cfg, [], b, truth, hash, truth', hash', z, subs, awaiting, slot, full);
    assert [] + b == b;
    DeliverQueue(cfg, id, b, truth', hash', z, subs, awaiting, slot, full);
  }

  /** Hearing again of the position Redis already holds does no harm, whatever is undelivered. */
  lemma {:induction false} DeliverSamePosition(cfg: Config, id: Id, q: seq<Op>, pos: Pos, hash: Attrs, zooms: seq<nat>,
                                               attrs: Attrs, z: nat, subs: set<Tile>, awaiting: set<Tile>,
                                               slot: Option<Feature>, full: bool)
    requires ValidConfig(cfg)
    requires Coherent(cfg, id, q, Some(pos), hash, full)
    requires SlotOk(cfg, q, Some(pos), hash, z, subs, awaiting, slot, full)
    requires forall t :: t in subs ==> t.z == z
    ensures SlotOk(cfg, q, Some(pos), hash, z, subs, awaiting,
                   DeliverAll(slot, WriteOps(cfg, zooms, id, Some(pos), pos, attrs), subs), full)
    decreases |zooms|
  {
    if zooms != [] {
      var o := Op(cfg.tileAt(zooms[0], pos), Move(id, pos));
      var rest := WriteOps(cfg, zooms[1..], id, Some(pos), pos, attrs);
      assert WriteOps(cfg, zooms, id, Some(pos), pos, attrs)[1..] == rest;
      var after := Deliver(slot, o, subs);
      forall w | InScope(w, full) && SlotDemands(cfg, Some(pos), hash, z, subs - awaiting, after, w)
        ensures Later(q, 0, w)
      {
        if slot.None? && w.WantSetter? {
          assert SlotDemands(cfg, Some(pos), hash, z, subs - awaiting, slot, WantAdd(w.tile));
          AddBringsField(cfg, id, q, Some(pos), hash, 0, w);
        } else {
          assert SlotDemands(cfg, Some(pos), hash, z, subs - awaiting, slot, w);
        }
      }
      DeliverSamePosition(cfg, id, q, pos, hash, zooms[1..], attrs, z, subs, awaiting, after, full);
    }
  }

  /** A snapshot task that runs while its tile is subscribed. */
  lemma SnapshotKeeps(cfg: Config, id: Id, q: seq<Op>, truth: Option<Pos>, hash: Attrs,
                      z: nat, subs: set<Tile>, awaiting: set<Tile>, slot: Option<Feature>, full: bool, t: Tile)
    requires ValidConfig(cfg)
    requires Coherent(cfg, id, q, truth, hash, full)
    requires SlotOk(cfg, q, truth, hash, z, subs, awaiting, slot, full)
    requires t in subs && t.z == z
    ensures SlotOk(cfg, q, truth, hash, z, subs, awaiting - {t},
                   if Covers(cfg, truth, t) then Touch(slot, Snapshot(id, truth.value, hash)) else slot, full)
  {
    var after := if Covers(cfg, truth, t) then Touch(slot, Snapshot(id, truth.value, hash)) else slot;
    forall w | InScope(w, full) && SlotDemands(cfg, truth, hash, z, subs - (awaiting - {t}), after, w)
      ensures Later(q, 0, w)
    {
      assert SlotDemands(cfg, truth, hash, z, subs - awaiting, slot, w);
    }
  }

  /** The client's slot after an eviction that keeps the given tiles. */
  function Evict(cfg: Config, slot: Option<Feature>, z: nat, next: set<Tile>): Option<Feature> {
    if slot.Some? && cfg.tileAt(z, slot.value.pos) !in next then None else slot
  }

  /** A viewport change at the same zoom, whatever is undelivered. New tiles start to await their snapshot. */
  lemma ViewportKeeps(cfg: Config, id: Id, q: seq<Op>, truth: Option<Pos>, hash: Attrs,
                      z: nat, subs: set<Tile>, awaiting: set<Tile>, slot: Option<Feature>, full: bool, next: set<Tile>)
    requires ValidConfig(cfg)
    requires Coherent(cfg, id, q, truth, hash, full)
    requires SlotOk(cfg, q, truth, hash, z, subs, awaiting, slot, full)
    ensures SlotOk(cfg, q, truth, hash, z, next, awaiting + (next - subs), Evict(cfg, slot, z, next), full)
  {
    var after := Evict(cfg, slot, z, next);
    var awaiting' := awaiting + (next - subs);
    forall w | InScope(w, full) && SlotDemands(cfg, truth, hash, z, next - awaiting', after, w)
      ensures Later(q, 0, w)
    {
      if slot != after {
        // The evicted feature was on another tile than the member, hence a debt: `remove` there, then `add` here.
        var gone := WantRemove(cfg.tileAt(z, slot.value.pos));
        assert SlotDemands(cfg, truth, hash, z, subs - awaiting, slot, gone);
        var j :| 0 <= j < |q| && Meets(q[j], gone);
        ElsewhereBringsAdd(cfg, id, q, truth, hash, full, j, w.tile);
      } else {
        assert SlotDemands(cfg, truth, hash, z, subs - awaiting, slot, w);
      }
    }
  }

  // ---------- Nothing undelivered ----------

  /** The feature the client ought to hold. */
  function Ideal(cfg: Config, truth: Option<Pos>, hash: Attrs, z: nat, subs: set<Tile>): Option<Feature> {
    if truth.Some? && cfg.tileAt(z, truth.value) in subs then Some(Feature(truth.value, hash)) else None
  }

  /** With nothing undelivered, the feature is right or its tile still awaits a snapshot. */
  lemma Settled(cfg: Config, truth: Option<Pos>, hash: Attrs, z: nat, subs: set<Tile>, awaiting: set<Tile>,
                slot: Option<Feature>, full: bool)
    requires ValidConfig(cfg)
    requires SlotOk(cfg, [], truth, hash, z, subs, awaiting, slot, full)
    ensures slot.Some? ==> truth == Some(slot.value.pos) && cfg.tileAt(z, slot.value.pos) in subs
    ensures truth.Some? && cfg.tileAt(z, truth.value) in subs - awaiting ==> slot.Some?
    ensures full && truth.Some? && cfg.tileAt(z, truth.value) in subs - awaiting ==>
        slot == Some(Feature(truth.value, hash))
  {
    var live := subs - awaiting;
    if slot.Some? && truth != Some(slot.value.pos) {
      var t := cfg.tileAt(z, slot.value.pos);
      assert SlotDemands(cfg, truth, hash, z, live, slot,
                         if Covers(cfg, truth, t) then WantPut(t, truth.value) else WantRemove(t));
    }
    if truth.Some? && cfg.tileAt(z, truth.value) in live {
      var t := cfg.tileAt(z, truth.value);
      if slot.None? {
        assert SlotDemands(cfg, truth, hash, z, live, slot, WantAdd(t));
      } else if full {
        forall k | k in hash ensures k in slot.value.props && slot.value.props[k] == hash[k] {
          if !(k in slot.value.props && slot.value.props[k] == hash[k]) {
            assert SlotDemands(cfg, truth, hash, z, live, slot, WantSetter(t, k, hash[k]));
          }
        }
        assert slot.value.props == hash;
      }
    }
  }

  /** With nothing undelivered, the awaited snapshots complete the picture. */
  lemma SettledBySnapshots(cfg: Config, id: Id, truth: Option<Pos>, hash: Attrs, z: nat, subs: set<Tile>,
                           awaiting: set<Tile>, slot: Option<Feature>, full: bool)
    requires ValidConfig(cfg) && awaiting <= subs
    requires SlotOk(cfg, [], truth, hash, z, subs, awaiting, slot, full)
    ensures var after := if truth.Some? && cfg.tileAt(z, truth.value) in awaiting
        then Touch(slot, Snapshot(id, truth.value, hash)) else slot;
            && PosOf(after) == View(cfg, truth, z, subs)
            && (full ==> after == Ideal(cfg, truth, hash, z, subs))
  {
    Settled(cfg, truth, hash, z, subs, awaiting, slot, full);
    assert full ==> PropsOf(slot) + hash == hash;
  }

  // ---------- When a local write may overtake undelivered messages ----------

  /** Some undelivered message will move, add or remove the member on a subscribed tile. */
  ghost predicate Repositions(q: seq<Op>, subs: set<Tile>) {
    exists i :: 0 <= i < |q| && q[i].tile in subs && !q[i].payload.Attr?
  }

  /** The messages of GEOADD (a new position) or ZREM (none) on a member at `was`. */
  function UpdateOps(cfg: Config, id: Id, was: Option<Pos>, now: Option<Pos>, attrs: Attrs): seq<Op> {
    if now.Some? then WriteOps(cfg, cfg.zooms, id, was, now.value, attrs)
    else if was.Some? then RemoveOps(cfg, cfg.zooms, id, was.value)
    else []
  }

  lemma UpdateOpsFacts(cfg: Config, id: Id, was: Option<Pos>, now: Option<Pos>, hash: Attrs,
                       z: nat, subs: set<Tile>, awaiting: set<Tile>, slot: Option<Feature>, full: bool)
    requires ValidConfig(cfg)
    ensures Coherent(cfg, id, UpdateOps(cfg, id, was, now, hash), now, hash, full)
    ensures Pays(cfg, id, UpdateOps(cfg, id, was, now, hash), was, hash, now, hash, full)
    ensures z in cfg.zooms ==>
        SlotPays(cfg, UpdateOps(cfg, id, was, now, hash), was, hash, now, hash, z, subs, awaiting, slot, full)
  {
    if now.Some? {
      WriteOpsCoherent(cfg, cfg.zooms, id, was, now.value, hash, full);
      WritePays(cfg, id, was, now.value, hash, full);
      if z in cfg.zooms {
        WriteSlotPays(cfg, id, was, now.value, hash, z, subs, awaiting, slot, full);
      }
    } else if was.Some? {
      RemoveOpsFacts(cfg, id, was.value, hash, z, subs, awaiting, slot, full);
    }
  }

  /** The last repositioning message decides; what the client held before does not matter. */
  lemma {:induction false} LastMessageDecides(q: seq<Op>, subs: set<Tile>, a: Option<Feature>, b: Option<Feature>)
    requires Repositions(q, subs) || PosOf(a) == PosOf(b)
    ensures PosOf(DeliverAll(a, q, subs)) == PosOf(DeliverAll(b, q, subs))
    ensures !Repositions(q, subs) ==> PosOf(DeliverAll(a, q, subs)) == PosOf(a)
    decreases |q|
  {
    if q != [] {
      if Repositions(q, subs) && !(q[0].tile in subs && !q[0].payload.Attr?) {
        var i :| 0 <= i < |q| && q[i].tile in subs && !q[i].payload.Attr?;
        assert q[1..][i - 1] == q[i];
      }
      if Repositions(q[1..], subs) {
        var i :| 0 <= i < |q[1..]| && q[1..][i].tile in subs && !q[1..][i].payload.Attr?;
        assert q[i + 1] == q[1..][i];
      }
      LastMessageDecides(q[1..], subs, Deliver(a, q[0], subs), Deliver(b, q[0], subs));
    }
  }

  /** Only messages that reposition the member on subscribed tiles can pay the debts of its feature. */
  lemma DebtsNeedRepositioning(cfg: Config, q: seq<Op>, truth: Option<Pos>, hash: Attrs,
                               z: nat, subs: set<Tile>, awaiting: set<Tile>, slot: Option<Feature>)
    requires SlotOk(cfg, q, truth, hash, z, subs, awaiting, slot, false)
    ensures SlotOk(cfg, [], truth, hash, z, subs, awaiting, slot, false) || Repositions(q, subs)
  {
    if !SlotOk(cfg, [], truth, hash, z, subs, awaiting, slot, false) {
      var w :| InScope(w, false) && SlotDemands(cfg, truth, hash, z, subs - awaiting, slot, w);
      var j :| 0 <= j < |q| && Meets(q[j], w);
      assert q[j].tile in subs && !q[j].payload.Attr?;
    }
  }

  /** Undelivered messages that reposition the member at all put it where Redis says, whatever the client held. */
  lemma RepositioningLands(cfg: Config, id: Id, q: seq<Op>, truth: Option<Pos>, hash: Attrs,
                           z: nat, subs: set<Tile>, slot: Option<Feature>)
    requires ValidConfig(cfg)
    requires forall t :: t in subs ==> t.z == z
    requires Coherent(cfg, id, q, truth, hash, false)
    requires Repositions(q, subs)
    ensures PosOf(DeliverAll(slot, q, subs)) == View(cfg, truth, z, subs)
  {
    var right := Ideal(cfg, truth, map[], z, subs);
    LastMessageDecides(q, subs, slot, right);
    DeliverQueue(cfg, id, q, truth, hash, z, subs, {}, right, false);
    Settled(cfg, truth, hash, z, subs, {}, DeliverAll(right, q, subs), false);
  }

  /** What the client will show once the messages `q` and the awaited snapshots have arrived. */
  function Outlook(cfg: Config, truth: Option<Pos>, z: nat, subs: set<Tile>, awaiting: set<Tile>,
                   slot: Option<Feature>, q: seq<Op>): Option<Pos>
  {
    if View(cfg, truth, z, awaiting).Some? then truth else PosOf(DeliverAll(slot, q, subs))
  }

  /** A node delivers its own write at once, ahead of what other nodes published before.
      Once those arrive too, the client is right exactly when a snapshot of the member's new
      tile is still to come, or none of them repositions the member on a subscribed tile, or
      the write changes nothing the client can see. */
  lemma LocalWriteExact(cfg: Config, id: Id, q: seq<Op>, was: Option<Pos>, now: Option<Pos>, hash: Attrs,
                        z: nat, subs: set<Tile>, awaiting: set<Tile>, slot: Option<Feature>)
    requires ValidConfig(cfg) && z in cfg.zooms
    requires awaiting <= subs && forall t :: t in subs ==> t.z == z
    requires Coherent(cfg, id, q, was, hash, false)
    requires SlotOk(cfg, q, was, hash, z, subs, awaiting, slot, false)
    ensures Outlook(cfg, now, z, subs, awaiting, DeliverAll(slot, UpdateOps(cfg, id, was, now, hash), subs), q)
            == View(cfg, now, z, subs)
       <==> View(cfg, now, z, awaiting).Some? || !Repositions(q, subs)
            || View(cfg, was, z, subs) == View(cfg, now, z, subs)
  {
    var b := UpdateOps(cfg, id, was, now, hash);
    var ahead := DeliverAll(slot, b, subs);
    if Repositions(q, subs) {
      RepositioningLands(cfg, id, q, was, hash, z, subs, ahead);
    } else {
      LastMessageDecides(q, subs, ahead, ahead);
      DebtsNeedRepositioning(cfg, q, was, hash, z, subs, awaiting, slot);
      UpdateOpsFacts(cfg, id, was, now, hash, z, subs, awaiting, slot, false);
      DeliverLocally(cfg, id, b, was, hash, now, hash, z, subs, awaiting, slot, false);
      Settled(cfg, now, hash, z, subs, awaiting, ahead, false);
    }
  }
}
