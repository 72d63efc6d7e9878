/** The client's code and the protocol's client are the same thing; and what watching objects changes. */
module ClientView {
  import opened Payloads
  import opened MemberTracking
  import opened RedisStore
  import opened Protocol
  import opened Settling
  import opened Limits
  import opened MapClient

  /** The protocol's view of a client that follows one set. */
  ghost predicate Mirrors(c: Client, s: State) {
    c.features == s.features && TileTopics(c.layer, c.subs) == s.tileSubs
  }

  lemma TopicsAreTiles(layer: string, a: set<Tile>, b: set<Tile>)
    ensures TileTopics(layer, a) - TileTopics(layer, b) == TileTopics(layer, a - b)
    ensures TileTopics(layer, a) == {} <==> a == {}
    ensures forall t :: TileTopic(layer, t) in TileTopics(layer, a) <==> t in a
  {
    if t :| t in a {
      assert TileTopic(layer, t) in TileTopics(layer, a);
    }
  }

  /** Without watched objects, looking elsewhere does what the protocol's step does. */
  lemma LookIsChangeViewport(cfg: Config, c: Client, s: State, zoom: nat, tiles: set<Tile>, s': State)
    requires Mirrors(c, s) && s.objectSubs == {}
    requires MapClient.Step(cfg.tileAt, s, Look(c.layer, zoom, tiles), s')
    ensures Mirrors(ChangeViewport(cfg, c, zoom, tiles), s')
  {
    var next := TileTopics(c.layer, tiles);
    TopicsAreTiles(c.layer, c.subs, tiles);
    TopicsAreTiles(c.layer, c.subs - tiles, {});
    TopicsAreTiles(c.layer, tiles, {});
    assert Keep(cfg.tileAt, s.features, c.layer, zoom, next, {}) == EvictAll(cfg, c.features, zoom, tiles);
  }

  /** Receiving a message the client is subscribed to does what the protocol's delivery does. */
  lemma ReceiveIsDelivery(cfg: Config, c: Client, s: State, m: Message, s': State)
    requires Mirrors(c, s) && Wants(c, m)
    requires MapClient.Step(cfg.tileAt, s, Receive(m), s')
    ensures Mirrors(DeliverTo(c, m), s')
  {
  }

  /** The feature map after looking at other tiles, when their snapshots have arrived. */
  function Moved(cfg: Config, r: Redis, c: Client, zoom: nat, tiles: set<Tile>, watched: set<Topic>): map<Id, Feature> {
    var kept := Keep(cfg.tileAt, c.features, c.layer, zoom, TileTopics(c.layer, tiles), watched);
    SnapshotInto(cfg, r, c.layer, kept, tiles - c.subs)
  }

  /** A client that watches objects keeps their features when it looks elsewhere, at whatever zoom. Up to date before,
      it is up to date after exactly when no watched object it shows lies outside the new tiles. */
  lemma {:induction false} WatchedObjectsExact(cfg: Config, r: Redis, c: Client, zoom: nat, tiles: set<Tile>,
                                               watched: set<Topic>)
    requires ValidConfig(cfg) && UpToDate(cfg, r, c, false)
    requires forall t :: t in c.subs ==> t.z == c.zoom
    requires forall t :: t in tiles ==> t.z == zoom
    ensures SamePlaces(Moved(cfg, r, c, zoom, tiles, watched), Query(cfg, r, c.layer, tiles))
       <==> forall id :: id in c.features && ObjectTopic(id) in watched ==>
         cfg.tileAt(zoom, c.features[id].pos) in tiles
  {
    var after, query := Moved(cfg, r, c, zoom, tiles, watched), Query(cfg, r, c.layer, tiles);
    AgreeByMember(c.features, Query(cfg, r, c.layer, c.subs), false);
    AgreeByMember(after, query, false);
    forall id {
      MovedAt(cfg, r, c, zoom, tiles, watched, id);
    }
    if id :| id in c.features && ObjectTopic(id) in watched && cfg.tileAt(zoom, c.features[id].pos) !in tiles {
      assert PosOf(Lookup(after, id)) != PosOf(Lookup(query, id));
    }
  }

  lemma InTilesAt(cfg: Config, pos: Pos, z: nat, tiles: set<Tile>)
    requires ValidConfig(cfg) && forall t :: t in tiles ==> t.z == z
    ensures InTiles(cfg, pos, tiles) <==> cfg.tileAt(z, pos) in tiles
  {
    if cfg.tileAt(z, pos) in tiles {
      var t := cfg.tileAt(z, pos);
      assert cfg.tileAt(t.z, pos) == t;
    }
  }

  /** A tile that was subscribed before is not new, so its members must have been held. */
  lemma NewOrHeld(cfg: Config, r: Redis, c: Client, zoom: nat, tiles: set<Tile>, pos: Pos)
    requires ValidConfig(cfg)
    requires forall t :: t in c.subs ==> t.z == c.zoom
    requires forall t :: t in tiles ==> t.z == zoom
    ensures cfg.tileAt(zoom, pos) in tiles ==> InTiles(cfg, pos, tiles - c.subs) || InTiles(cfg, pos, c.subs)
    ensures InTiles(cfg, pos, tiles - c.subs) ==> cfg.tileAt(zoom, pos) in tiles
  {
    InTilesAt(cfg, pos, zoom, tiles - c.subs);
    InTilesAt(cfg, pos, c.zoom, c.subs);
    if cfg.tileAt(zoom, pos) in c.subs {
      assert zoom == c.zoom;
    }
  }

  /** One object after the move. */
  lemma MovedAt(cfg: Config, r: Redis, c: Client, zoom: nat, tiles: set<Tile>, watched: set<Topic>, id: Id)
    requires ValidConfig(cfg)
    requires forall t :: t in c.subs ==> t.z == c.zoom
    requires forall t :: t in tiles ==> t.z == zoom
    requires PosOf(Lookup(c.features, id)) == PosOf(Lookup(Query(cfg, r, c.layer, c.subs), id))
    ensures PosOf(Lookup(Moved(cfg, r, c, zoom, tiles, watched), id))
         == PosOf(Lookup(Query(cfg, r, c.layer, tiles), id))
       <==> !(id in c.features && ObjectTopic(id) in watched && cfg.tileAt(zoom, c.features[id].pos) !in tiles)
  {
    var truth := Truth(r, c.layer, id);
    QueryLookup(cfg, r, c.layer, c.subs, id);
    QueryLookup(cfg, r, c.layer, tiles, id);
    var kept := Keep(cfg.tileAt, c.features, c.layer, zoom, TileTopics(c.layer, tiles), watched);
    SnapshotIntoAt(cfg, r, c.layer, kept, tiles - c.subs, id);
    TopicsAreTiles(c.layer, tiles, {});
    if truth.Some? {
      InTilesAt(cfg, truth.value, zoom, tiles);
      NewOrHeld(cfg, r, c, zoom, tiles, truth.value);
    }
  }

  // ---------- Messages that are already on their way to the client ----------

  lemma {:induction false} ReceiveAllAt(features: map<Id, Feature>, ms: seq<Message>, layer: string, subs: set<Tile>,
                                        id: Id)
    requires forall i :: 0 <= i < |ms| ==> ms[i].TileMsg? && ms[i].layer == layer && ms[i].tile in subs
    ensures Lookup(ReceiveAll(features, ms), id) == DeliverAll(Lookup(features, id), OpsAbout(ms, layer, id), subs)
    decreases |ms|
  {
    if ms != [] {
      assert ms[0].TileMsg? && ms[0].layer == layer && ms[0].tile in subs;
      ReceiveAllAt(Received(features, ms[0]), ms[1..], layer, subs, id);
      if IsAbout(ms[0], layer, id) {
        assert OpsAbout(ms, layer, id)[1..] == OpsAbout(ms[1..], layer, id);
      } else {
        assert OpsAbout(ms, layer, id) == OpsAbout(ms[1..], layer, id);
      }
    }
  }

  /** The map when a client looks elsewhere while messages are queued for it: eviction, the queue, then the new tiles'
      snapshots. */
  function LookedWithQueue(cfg: Config, r: Redis, c: Client, ms: seq<Message>, zoom: nat,
                           tiles: set<Tile>): map<Id, Feature>
  {
    SnapshotInto(cfg, r, c.layer, ReceiveAll(ChangeViewport(cfg, c, zoom, tiles).features, ms), tiles - c.subs)
  }

  lemma LookedAt(cfg: Config, r: Redis, c: Client, ms: seq<Message>, zoom: nat, tiles: set<Tile>, id: Id)
    requires ValidConfig(cfg)
    requires forall t :: t in c.subs ==> t.z == c.zoom
    requires forall t :: t in tiles ==> t.z == zoom
    requires forall i :: 0 <= i < |ms| ==> Wants(c, ms[i])
    requires PosOf(Lookup(ReceiveAll(c.features, ms), id)) == Due(cfg, r, c, id)
    ensures PosOf(Lookup(LookedWithQueue(cfg, r, c, ms, zoom, tiles), id))
         == View(cfg, Truth(r, c.layer, id), zoom, tiles)
       <==> View(cfg, Truth(r, c.layer, id), zoom, tiles).Some? || Due(cfg, r, c, id).None?
            || !Repositions(OpsAbout(ms, c.layer, id), c.subs)
  {
    var truth, u := Truth(r, c.layer, id), OpsAbout(ms, c.layer, id);
    var slot, kept := Lookup(c.features, id), Lookup(ChangeViewport(cfg, c, zoom, tiles).features, id);
    ReceiveAllAt(c.features, ms, c.layer, c.subs, id);
    ReceiveAllAt(ChangeViewport(cfg, c, zoom, tiles).features, ms, c.layer, c.subs, id);
    SnapshotIntoAt(cfg, r, c.layer, ReceiveAll(ChangeViewport(cfg, c, zoom, tiles).features, ms), tiles - c.subs, id);
    assert kept == if c.subs - tiles != {} then Evict(cfg, slot, zoom, tiles) else slot;
    assert c.subs - tiles == {} ==> forall t :: t in c.subs ==> t !in c.subs - tiles;
    if Repositions(u, c.subs) {
      LastMessageDecides(u, c.subs, kept, slot);
    } else {
      LastMessageDecides(u, c.subs, kept, kept);
      LastMessageDecides(u, c.subs, slot, slot);
    }
    if truth.Some? {
      NewOrHeld(cfg, r, c, zoom, tiles, truth.value);
      InTilesAt(cfg, truth.value, c.zoom, c.subs);
    }
  }

  /** Messages queued for a client when it unsubscribes still reach it, and the client does not look at their topics. If
      they would have made it right where it was, it is right where it looks now exactly when none of them repositions a
      member that goes out of view. */
  lemma {:induction false} QueuedMessagesExact(cfg: Config, r: Redis, c: Client, ms: seq<Message>, zoom: nat,
                                               tiles: set<Tile>)
    requires ValidConfig(cfg)
    requires forall t :: t in c.subs ==> t.z == c.zoom
    requires forall t :: t in tiles ==> t.z == zoom
    requires forall i :: 0 <= i < |ms| ==> Wants(c, ms[i])
    requires forall id :: PosOf(Lookup(ReceiveAll(c.features, ms), id)) == Due(cfg, r, c, id)
    ensures (forall id ::
              PosOf(Lookup(LookedWithQueue(cfg, r, c, ms, zoom, tiles), id))
              == View(cfg, Truth(r, c.layer, id), zoom, tiles))
       <==> forall id :: Repositions(OpsAbout(ms, c.layer, id), c.subs) && Due(cfg, r, c, id).Some? ==>
              View(cfg, Truth(r, c.layer, id), zoom, tiles).Some?
  {
    forall id {
      LookedAt(cfg, r, c, ms, zoom, tiles, id);
    }
  }
}
