/** GEOADD as clients may send it: with NX or XX, and naming a member any number of times. The proxy reports every
    position against the one before the command; this says exactly when that leaves a client right. */
module GeoAddOptions {
  import opened Payloads
  import opened MemberTracking
  import opened RedisStore
  import opened Protocol
  import opened Settling
  import opened RespProxy

  datatype AddOption = Always | OnlyNew | OnlyExisting

  function LeadingFlags(tail: seq<string>): seq<string> {
    if tail != [] && IsFlag(tail[0]) then [Upper(tail[0])] + LeadingFlags(tail[1..]) else []
  }

  /** The option among the leading flags. Redis refuses NX together with XX. */
  function OptionOf(args: seq<string>): AddOption {
    var flags := LeadingFlags(if |args| < 2 then [] else args[2..]);
    if "NX" in flags then OnlyNew else if "XX" in flags then OnlyExisting else Always
  }

  /** Whether Redis sets the position: NX leaves members alone that exist, XX those that do not. */
  predicate Applies(o: AddOption, was: Option<Pos>) {
    match o
    case Always => true
    case OnlyNew => was.None?
    case OnlyExisting => was.Some?
  }

  /** The positions that the entries give to one member, in order. */
  function PositionsOf(entries: seq<Entry>, id: Id): seq<Pos> {
    if entries == [] then []
    else
      var n := |entries| - 1;
      PositionsOf(entries[..n], id) + if entries[n].member == id then [entries[n].pos] else []
  }

  /** Where Redis has the member after setting the positions one after the other. */
  function TruthAfter(o: AddOption, was: Option<Pos>, ps: seq<Pos>): Option<Pos> {
    if ps == [] then was
    else
      var n := |ps| - 1;
      var so := TruthAfter(o, was, ps[..n]);
      if Applies(o, so) then Some(ps[n]) else so
  }

  /** What Redis makes of a GEOADD with these arguments. */
  ghost predicate Taken(parse: string -> Option<real>, before: Redis, after: Redis, args: seq<string>)
    requires |args| >= 2
  {
    forall id :: Truth(after, args[1], id)
      == TruthAfter(OptionOf(args), Truth(before, args[1], id), PositionsOf(GeoAddEntries(parse, args), id))
  }

  // ---------- What the client shows ----------

  /** Where a write lands for a client, given where the proxy found the member and what the client held. */
  function Landed(cfg: Config, was: Option<Pos>, pos: Pos, z: nat, subs: set<Tile>, held: Option<Pos>): Option<Pos> {
    if cfg.tileAt(z, pos) in subs then Some(pos)
    else if View(cfg, was, z, subs).Some? then None
    else held
  }

  /** The same for several writes, all reported against the same old position. */
  function AllLanded(cfg: Config, was: Option<Pos>, ps: seq<Pos>, z: nat, subs: set<Tile>,
                     held: Option<Pos>): Option<Pos>
  {
    if ps == [] then held
    else
      var n := |ps| - 1;
      Landed(cfg, was, ps[n], z, subs, AllLanded(cfg, was, ps[..n], z, subs, held))
  }

  lemma {:induction false} WriteLands(cfg: Config, zooms: seq<nat>, id: Id, was: Option<Pos>, pos: Pos, hash: Attrs,
                                      z: nat, subs: set<Tile>, slot: Option<Feature>)
    requires ValidConfig(cfg)
    requires forall t :: t in subs ==> t.z == z
    ensures PosOf(DeliverAll(slot, WriteOps(cfg, zooms, id, was, pos, hash), subs))
         == if z in zooms then Landed(cfg, was, pos, z, subs, PosOf(slot)) else PosOf(slot)
    decreases |zooms|
  {
    if zooms != [] {
      var first := OpsAtZoom(cfg, id, was, pos, hash, zooms[0]);
      DeliverAllAppend(slot, first, WriteOps(cfg, zooms[1..], id, was, pos, hash), subs);
      ZoomLands(cfg, id, was, pos, hash, zooms[0], z, subs, slot);
      WriteLands(cfg, zooms[1..], id, was, pos, hash, z, subs, DeliverAll(slot, first, subs));
    }
  }

  lemma ZoomLands(cfg: Config, id: Id, was: Option<Pos>, pos: Pos, hash: Attrs, at: nat,
                  z: nat, subs: set<Tile>, slot: Option<Feature>)
    requires ValidConfig(cfg)
    requires forall t :: t in subs ==> t.z == z
    ensures PosOf(DeliverAll(slot, OpsAtZoom(cfg, id, was, pos, hash, at), subs))
         == if at == z then Landed(cfg, was, pos, z, subs, PosOf(slot)) else PosOf(slot)
  {
    var ops := OpsAtZoom(cfg, id, was, pos, hash, at);
    assert DeliverAll(slot, ops, subs) == DeliverAll(Deliver(slot, ops[0], subs), ops[1..], subs);
    if |ops| == 2 {
      assert DeliverAll(Deliver(slot, ops[0], subs), ops[1..], subs)
           == Deliver(Deliver(slot, ops[0], subs), ops[1], subs);
    }
  }

  /** The messages of one entry, seen from one member. */
  lemma EntryAbout(cfg: Config, layer: string, e: Entry, was: Option<Pos>, attrs: Attrs, id: Id)
    requires ValidConfig(cfg)
    ensures OpsAbout(TileMessages(layer, UpdateOps(cfg, e.member, was, Some(e.pos), attrs)), layer, id)
         == if e.member == id then UpdateOps(cfg, id, was, Some(e.pos), attrs) else []
  {
    UpdateOpsNameMember(cfg, e.member, was, Some(e.pos), attrs);
    OpsAboutTileMessages(layer, UpdateOps(cfg, e.member, was, Some(e.pos), attrs), layer, e.member, id);
  }

  /** One more entry reported. */
  lemma EntryLands(cfg: Config, layer: string, first: seq<Message>, e: Entry, was: Option<Pos>, attrs: Attrs, id: Id,
                   z: nat, subs: set<Tile>, slot: Option<Feature>)
    requires ValidConfig(cfg) && z in cfg.zooms
    requires forall t :: t in subs ==> t.z == z
    ensures var last := TileMessages(layer, UpdateOps(cfg, e.member, was, Some(e.pos), attrs));
            var held := PosOf(DeliverAll(slot, OpsAbout(first, layer, id), subs));
            PosOf(DeliverAll(slot, OpsAbout(first + last, layer, id), subs))
            == if e.member == id then Landed(cfg, was, e.pos, z, subs, held) else held
  {
    var last := TileMessages(layer, UpdateOps(cfg, e.member, was, Some(e.pos), attrs));
    OpsAboutAppend(first, last, layer, id);
    EntryAbout(cfg, layer, e, was, attrs, id);
    DeliverAllAppend(slot, OpsAbout(first, layer, id), OpsAbout(last, layer, id), subs);
    if e.member == id {
      WriteLands(cfg, cfg.zooms, id, was, e.pos, attrs, z, subs, DeliverAll(slot, OpsAbout(first, layer, id), subs));
    }
  }

  lemma AllLandedStep(cfg: Config, was: Option<Pos>, ps: seq<Pos>, pos: Pos, z: nat, subs: set<Tile>, held: Option<Pos>)
    ensures AllLanded(cfg, was, ps + [pos], z, subs, held)
         == Landed(cfg, was, pos, z, subs, AllLanded(cfg, was, ps, z, subs, held))
    ensures AllLanded(cfg, was, ps + [], z, subs, held) == AllLanded(cfg, was, ps, z, subs, held)
  {
    assert (ps + [pos])[..|ps|] == ps;
    assert ps + [] == ps;
  }

  lemma {:induction false} MessagesLand(cfg: Config, before: Redis, after: Redis, layer: string, entries: seq<Entry>,
                                        id: Id, z: nat, subs: set<Tile>, slot: Option<Feature>)
    requires ValidConfig(cfg) && z in cfg.zooms
    requires forall t :: t in subs ==> t.z == z
    ensures PosOf(DeliverAll(slot, OpsAbout(GeoAddMessages(cfg, before, after, layer, entries), layer, id), subs))
         == AllLanded(cfg, Truth(before, layer, id), PositionsOf(entries, id), z, subs, PosOf(slot))
    decreases |entries|
  {
    if entries != [] {
      var n := |entries| - 1;
      var e := entries[n];
      MessagesLand(cfg, before, after, layer, entries[..n], id, z, subs, slot);
      EntryLands(cfg, layer, GeoAddMessages(cfg, before, after, layer, entries[..n]), e,
                 Truth(before, layer, e.member), Enriched(cfg, after, e.member), id, z, subs, slot);
      AllLandedStep(cfg, Truth(before, layer, id), PositionsOf(entries[..n], id), e.pos, z, subs, PosOf(slot));
    }
  }

  /** The client after the proxy's report of the command. */
  function AfterReport(cfg: Config, prefix: string, parse: string -> Option<real>, before: Redis, after: Redis,
                       args: seq<string>, order: seq<string>, c: Client): Client
    requires args != []
  {
    DeliverAllTo(c, Reported(cfg, prefix, parse, before, after, args, order))
  }

  /** What a client of the set shows after the report of a GEOADD, whatever its options and entries. */
  lemma ReportLands(cfg: Config, prefix: string, parse: string -> Option<real>, before: Redis, after: Redis,
                    args: seq<string>, order: seq<string>, c: Client, id: Id)
    requires ValidConfig(cfg) && args != [] && KindOf(args) == GeoAddKind && c.layer == args[1]
    requires c.zoom in cfg.zooms && forall t :: t in c.subs ==> t.z == c.zoom
    ensures Shown(AfterReport(cfg, prefix, parse, before, after, args, order, c), id)
         == AllLanded(cfg, Truth(before, c.layer, id), PositionsOf(GeoAddEntries(parse, args), id), c.zoom, c.subs,
                      Shown(c, id))
  {
    DeliverAllToMember(c, Reported(cfg, prefix, parse, before, after, args, order), id);
    MessagesLand(cfg, before, after, args[1], GeoAddEntries(parse, args), id, c.zoom, c.subs, Lookup(c.features, id));
  }

  /** A member that was not visible stays away exactly when no position is. */
  lemma {:induction false} NeverSeen(cfg: Config, was: Option<Pos>, ps: seq<Pos>, z: nat, subs: set<Tile>)
    requires View(cfg, was, z, subs).None?
    ensures AllLanded(cfg, was, ps, z, subs, None).None?
       <==> forall i :: 0 <= i < |ps| ==> cfg.tileAt(z, ps[i]) !in subs
    decreases |ps|
  {
    if ps != [] {
      var n := |ps| - 1;
      NeverSeen(cfg, was, ps[..n], z, subs);
      if forall i :: 0 <= i < |ps| ==> cfg.tileAt(z, ps[i]) !in subs {
        assert forall i :: 0 <= i < n ==> ps[..n][i] == ps[i];
      } else if cfg.tileAt(z, ps[n]) !in subs {
        var i :| 0 <= i < |ps| && cfg.tileAt(z, ps[i]) in subs;
        assert ps[..n][i] == ps[i];
      }
    }
  }

  lemma {:induction false} AlwaysSets(was: Option<Pos>, ps: seq<Pos>)
    ensures TruthAfter(Always, was, ps) == if ps == [] then was else Some(ps[|ps| - 1])
  {
  }

  /** A GEOADD without NX and XX that names a member any number of times: a client that was right stays right exactly
      when it sees the last position, saw the one before the command, or sees none of those in between. */
  lemma {:induction false} RepeatedMemberExact(cfg: Config, prefix: string, parse: string -> Option<real>,
                                               before: Redis, after: Redis, args: seq<string>, order: seq<string>,
                                               c: Client, id: Id)
    requires ValidConfig(cfg) && args != [] && KindOf(args) == GeoAddKind && c.layer == args[1]
    requires c.zoom in cfg.zooms && forall t :: t in c.subs ==> t.z == c.zoom
    requires Taken(parse, before, after, args) && OptionOf(args) == Always
    requires Shown(c, id) == Due(cfg, before, c, id)
    ensures var ps := PositionsOf(GeoAddEntries(parse, args), id);
            Shown(AfterReport(cfg, prefix, parse, before, after, args, order, c), id) == Due(cfg, after, c, id)
            <==> ps == [] || cfg.tileAt(c.zoom, ps[|ps| - 1]) in c.subs || Due(cfg, before, c, id).Some?
                 || forall i :: 0 <= i < |ps| - 1 ==> cfg.tileAt(c.zoom, ps[i]) !in c.subs
  {
    var ps := PositionsOf(GeoAddEntries(parse, args), id);
    var was := Truth(before, c.layer, id);
    ReportLands(cfg, prefix, parse, before, after, args, order, c, id);
    AlwaysSets(was, ps);
    if ps != [] && Due(cfg, before, c, id).None? {
      NeverSeen(cfg, was, ps[..|ps| - 1], c.zoom, c.subs);
      assert forall i :: 0 <= i < |ps| - 1 ==> ps[..|ps| - 1][i] == ps[i];
    }
  }

  /** A GEOADD with NX or XX, for a member it names once: a client that was right stays right exactly when Redis did
      set the position, or the old and the given position look the same to the client. */
  lemma {:induction false} FlaggedWriteExact(cfg: Config, prefix: string, parse: string -> Option<real>, before: Redis,
                                             after: Redis, args: seq<string>, order: seq<string>, c: Client, id: Id,
                                             given: Pos)
    requires ValidConfig(cfg) && args != [] && KindOf(args) == GeoAddKind && c.layer == args[1]
    requires c.zoom in cfg.zooms && forall t :: t in c.subs ==> t.z == c.zoom
    requires Taken(parse, before, after, args) && PositionsOf(GeoAddEntries(parse, args), id) == [given]
    requires Shown(c, id) == Due(cfg, before, c, id)
    ensures Shown(AfterReport(cfg, prefix, parse, before, after, args, order, c), id) == Due(cfg, after, c, id)
       <==> Applies(OptionOf(args), Truth(before, c.layer, id))
            || View(cfg, Some(given), c.zoom, c.subs) == Due(cfg, before, c, id)
  {
    var was := Truth(before, c.layer, id);
    ReportLands(cfg, prefix, parse, before, after, args, order, c, id);
    assert [given][..0] == [];
    assert AllLanded(cfg, was, [], c.zoom, c.subs, Shown(c, id)) == Shown(c, id);
    assert TruthAfter(OptionOf(args), was, [given]) == if Applies(OptionOf(args), was) then Some(given) else was;
  }
}
