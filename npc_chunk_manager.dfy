/** The proximity classifier (`NPCChunkManager`): the chunks around the NPC
    players are scanned, each scanned chunk is tested for an NPC chunk in
    its 3x3 neighbourhood, and the chunks whose state must change are
    emitted as VISIBLE and FOGGED writes to the store.

    The store queries `isVisibleChunk` and `setChunkState` that this code
    calls are not defined by the store; the first is the parameter
    `isVisible`, and the second is recorded as the emitted writes. */
module NpcChunks {
  import opened Common
  import opened FogOfWar
  import opened NpcRegistry

  /** Half-width of the neighbourhood that makes a chunk visible (3x3). */
  const NPC_CHECK_RADIUS: int := 1
  /** Half-width of the area scanned around each NPC chunk (5x5). */
  const NPC_SCAN_RADIUS: int := 2

  /** A loaded entity: whether it is a player, its UUID, and its block
      coordinates `(int) Math.floor(getX())`, `(int) Math.floor(getZ())`. */
  datatype Entity = Entity(isPlayer: bool, uuid: Option<Uuid>, blockX: Int32, blockZ: Int32)

  /** A call `setChunkState(pos.x, pos.z, state)` on the store. */
  datatype Write = Write(pos: ChunkPos, state: ChunkState)

  /** What one run of `updateChunkStates` computes and emits. */
  datatype Update = Update(
    npcChunks: set<ChunkPos>,
    allChunks: set<ChunkPos>,
    visibleChunks: set<ChunkPos>,
    foggedChunks: set<ChunkPos>,
    writes: seq<Write>,
    changedChunks: set<ChunkPos>,
    hasChanges: bool,
    /** Chunks handed to `ChunkReloadManager.requestChunkReload`. */
    reloads: set<ChunkPos>)

  predicate IsNpc(e: Entity, npcUuids: set<Uuid>) {
    e.isPlayer && e.uuid.Some? && e.uuid.value in npcUuids
  }

  /** The NPC players among the entities, in world order. */
  function NpcFilter(es: seq<Entity>, npcUuids: set<Uuid>): seq<Entity>
    decreases |es|
  {
    if es == [] then []
    else NpcFilter(es[..|es| - 1], npcUuids) + (if IsNpc(es[|es| - 1], npcUuids) then [es[|es| - 1]] else [])
  }

  /** The filter keeps exactly the NPC players. */
  lemma {:induction false} NpcFilterMembers(es: seq<Entity>, npcUuids: set<Uuid>, e: Entity)
    ensures e in NpcFilter(es, npcUuids) <==> e in es && IsNpc(e, npcUuids)
    decreases |es|
  {
    if es != [] {
      var init := es[..|es| - 1];
      NpcFilterMembers(init, npcUuids, e);
      assert es == init + [es[|es| - 1]];
    }
  }

  /** The chunk of an entity: `floor(x) >> 4`, `floor(z) >> 4`. */
  function ChunkOf(e: Entity): ChunkPos {
    ChunkPos(Shr4(e.blockX), Shr4(e.blockZ))
  }

  /** The chunk of an entity is the one whose sixteen columns contain it:
      the shift is floor division by 16, negative coordinates included. */
  lemma ChunkOfContains(e: Entity)
    ensures 16 * ChunkOf(e).x <= e.blockX < 16 * ChunkOf(e).x + 16
    ensures 16 * ChunkOf(e).z <= e.blockZ < 16 * ChunkOf(e).z + 16
    ensures -0x800_0000 <= ChunkOf(e).x < 0x800_0000 && -0x800_0000 <= ChunkOf(e).z < 0x800_0000
  {
    ShiftAndMask(e.blockX);
    ShiftAndMask(e.blockZ);
  }

  /** `c` lies in the square of half-width `r` centred on `n`. */
  predicate InSquare(c: ChunkPos, n: ChunkPos, r: int) {
    n.x - r <= c.x <= n.x + r && n.z - r <= c.z <= n.z + r
  }

  lemma SquareIsChebyshevBall(c: ChunkPos, n: ChunkPos, r: nat)
    ensures InSquare(c, n, r) <==> Chebyshev(c, n) <= r
  {
  }

  /** Some NPC chunk is within Chebyshev distance `r` of `c`. */
  predicate Near(c: ChunkPos, npcChunks: set<ChunkPos>, r: nat) {
    exists n :: n in npcChunks && Chebyshev(c, n) <= r
  }

  /** A chunk next to an NPC chunk is always among the scanned ones. */
  lemma NearIsScanned(c: ChunkPos, npcChunks: set<ChunkPos>)
    requires Near(c, npcChunks, NPC_CHECK_RADIUS)
    ensures Near(c, npcChunks, NPC_SCAN_RADIUS)
  {
  }

  /** Chunk coordinates of Java `int` values that stay clear of overflow
      when the scan and the check add their offsets. */
  predicate SmallChunk(c: ChunkPos) {
    -0x800_0000 <= c.x < 0x800_0000 && -0x800_0000 <= c.z < 0x800_0000
  }

  /** Every coordinate the scan and the check compute, up to
      NPC_SCAN_RADIUS + NPC_CHECK_RADIUS from an NPC chunk, is a Java `int`:
      the source's 32-bit additions never wrap. */
  lemma ScanDoesNotOverflow(n: ChunkPos, c: ChunkPos)
    requires SmallChunk(n)
    requires Chebyshev(c, n) <= NPC_SCAN_RADIUS + NPC_CHECK_RADIUS
    ensures IsInt32(c.x) && IsInt32(c.z)
  {
  }

  /** `getNpcEntities`: the player entities whose UUID is registered; none
      when there is no world. */
  method GetNpcEntities(worldPresent: bool, entities: seq<Entity>, npcUuids: set<Uuid>)
    returns (npcEntities: seq<Entity>)
    ensures npcEntities == if worldPresent then NpcFilter(entities, npcUuids) else []
  {
    npcEntities := [];
    if !worldPresent {
      return;
    }
    for i := 0 to |entities|
      invariant npcEntities == NpcFilter(entities[..i], npcUuids)
    {
      assert entities[..i + 1][..i] == entities[..i];
      var entity := entities[i];
      if entity.isPlayer {
        if entity.uuid.Some? && entity.uuid.value in npcUuids {
          npcEntities := npcEntities + [entity];
        }
      }
    }
    assert entities[..|entities|] == entities;
  }

  /** Step 3: the set of NPC chunks. */
  method CollectNpcChunks(npcEntities: seq<Entity>) returns (npcChunks: set<ChunkPos>)
    ensures forall c :: c in npcChunks <==> exists e :: e in npcEntities && ChunkOf(e) == c
    ensures forall c :: c in npcChunks ==> SmallChunk(c)
  {
    npcChunks := {};
    for i := 0 to |npcEntities|
      invariant forall c :: c in npcChunks <==> exists k :: 0 <= k < i && ChunkOf(npcEntities[k]) == c
      invariant forall c :: c in npcChunks ==> SmallChunk(c)
    {
      ChunkOfContains(npcEntities[i]);
      npcChunks := npcChunks + {ChunkOf(npcEntities[i])};
    }
  }

  /** Step 4, for one NPC chunk: adds its 5x5 square. */
  method AddScanSquare(allChunks: set<ChunkPos>, n: ChunkPos) returns (grown: set<ChunkPos>)
    ensures forall c :: c in grown <==> c in allChunks || InSquare(c, n, NPC_SCAN_RADIUS)
  {
    grown := allChunks;
    for dx := -NPC_SCAN_RADIUS to NPC_SCAN_RADIUS + 1
      invariant forall c :: c in grown <==>
        c in allChunks || (InSquare(c, n, NPC_SCAN_RADIUS) && c.x < n.x + dx)
    {
      for dz := -NPC_SCAN_RADIUS to NPC_SCAN_RADIUS + 1
        invariant forall c :: c in grown <==>
          c in allChunks || (InSquare(c, n, NPC_SCAN_RADIUS) && c.x < n.x + dx)
          || (c.x == n.x + dx && n.z - NPC_SCAN_RADIUS <= c.z < n.z + dz)
      {
        grown := grown + {ChunkPos(n.x + dx, n.z + dz)};
      }
    }
  }

  /** Step 4: the 5x5 square around each NPC chunk. */
  method ScanChunks(npcChunks: set<ChunkPos>) returns (allChunks: set<ChunkPos>)
    ensures forall c :: c in allChunks <==> Near(c, npcChunks, NPC_SCAN_RADIUS)
  {
    allChunks := {};
    var remaining := npcChunks;
    ghost var done: set<ChunkPos> := {};
    while remaining != {}
      invariant remaining <= npcChunks && done == npcChunks - remaining
      invariant forall c :: c in allChunks <==> exists m :: m in done && InSquare(c, m, NPC_SCAN_RADIUS)
      decreases |remaining|
    {
      var n :| n in remaining;
      allChunks := AddScanSquare(allChunks, n);
      remaining := remaining - {n};
      done := done + {n};
    }
    forall c ensures c in allChunks <==> Near(c, npcChunks, NPC_SCAN_RADIUS) {
      if c in allChunks {
        var m :| m in done && InSquare(c, m, NPC_SCAN_RADIUS);
        SquareIsChebyshevBall(c, m, NPC_SCAN_RADIUS);
      }
      if Near(c, npcChunks, NPC_SCAN_RADIUS) {
        var m :| m in npcChunks && Chebyshev(c, m) <= NPC_SCAN_RADIUS;
        SquareIsChebyshevBall(c, m, NPC_SCAN_RADIUS);
      }
    }
  }

  /** Step 5, the inner test: an NPC chunk in the 3x3 neighbourhood, found
      by the two nested loops that stop at the first hit. */
  method HasNearbyNpc(chunk: ChunkPos, npcChunks: set<ChunkPos>) returns (hasNearbyNpc: bool)
    ensures hasNearbyNpc <==> Near(chunk, npcChunks, NPC_CHECK_RADIUS)
  {
    hasNearbyNpc := false;
    var dx := -NPC_CHECK_RADIUS;
    while dx <= NPC_CHECK_RADIUS
      invariant -NPC_CHECK_RADIUS <= dx <= NPC_CHECK_RADIUS + 1
      invariant !hasNearbyNpc
      invariant forall n :: n in npcChunks && InSquare(n, chunk, NPC_CHECK_RADIUS) ==> n.x >= chunk.x + dx
    {
      var dz := -NPC_CHECK_RADIUS;
      while dz <= NPC_CHECK_RADIUS
        invariant -NPC_CHECK_RADIUS <= dz <= NPC_CHECK_RADIUS + 1
        invariant hasNearbyNpc ==> dz <= NPC_CHECK_RADIUS && ChunkPos(chunk.x + dx, chunk.z + dz) in npcChunks
        invariant !hasNearbyNpc ==> forall n :: n in npcChunks && InSquare(n, chunk, NPC_CHECK_RADIUS) && n.x == chunk.x + dx
                                               ==> n.z >= chunk.z + dz
      {
        var checkPos := ChunkPos(chunk.x + dx, chunk.z + dz);
        if checkPos in npcChunks {
          hasNearbyNpc := true;
          break;
        }
        dz := dz + 1;
      }
      if hasNearbyNpc {
        var hit := ChunkPos(chunk.x + dx, chunk.z + dz);
        SquareIsChebyshevBall(hit, chunk, NPC_CHECK_RADIUS);
        assert Chebyshev(chunk, hit) <= NPC_CHECK_RADIUS;
        return;
      }
      dx := dx + 1;
    }
    forall n | n in npcChunks ensures Chebyshev(chunk, n) > NPC_CHECK_RADIUS {
      SquareIsChebyshevBall(chunk, n, NPC_CHECK_RADIUS);
    }
  }

  /** Step 5: the chunks to make VISIBLE (an NPC nearby, not visible yet)
      and to make FOGGED (no NPC nearby, visible, not fogged yet). */
  method ClassifyChunks(allChunks: set<ChunkPos>, npcChunks: set<ChunkPos>,
                        isVisible: ChunkPos -> bool, fogClient: FogOfWarClient)
    returns (visibleChunks: set<ChunkPos>, foggedChunks: set<ChunkPos>)
    ensures forall c :: c in visibleChunks <==>
      c in allChunks && Near(c, npcChunks, NPC_CHECK_RADIUS) && !isVisible(c)
    ensures forall c :: c in foggedChunks <==>
      c in allChunks && !Near(c, npcChunks, NPC_CHECK_RADIUS) && isVisible(c) && !fogClient.IsFoggedChunk(c.x, c.z)
  {
    visibleChunks := {};
    foggedChunks := {};
    var remaining := allChunks;
    ghost var done: set<ChunkPos> := {};
    while remaining != {}
      invariant remaining <= allChunks && done == allChunks - remaining
      invariant forall c :: c in visibleChunks <==>
        c in done && Near(c, npcChunks, NPC_CHECK_RADIUS) && !isVisible(c)
      invariant forall c :: c in foggedChunks <==>
        c in done && !Near(c, npcChunks, NPC_CHECK_RADIUS) && isVisible(c) && !fogClient.IsFoggedChunk(c.x, c.z)
      decreases |remaining|
    {
      var chunk :| chunk in remaining;
      var hasNearbyNpc := HasNearbyNpc(chunk, npcChunks);
      if hasNearbyNpc {
        if !isVisible(chunk) {
          visibleChunks := visibleChunks + {chunk};
        }
      } else if isVisible(chunk) {
        if !fogClient.IsFoggedChunk(chunk.x, chunk.z) {
          foggedChunks := foggedChunks + {chunk};
        }
      }
      remaining := remaining - {chunk};
      done := done + {chunk};
    }
  }

  /** No element occurs twice. */
  predicate Distinct<T(==)>(ws: seq<T>) {
    forall i, j :: 0 <= i < j < |ws| ==> ws[i] != ws[j]
  }

  lemma AppendFresh<T>(ws: seq<T>, w: T)
    requires Distinct(ws) && w !in ws
    ensures Distinct(ws + [w])
    ensures forall v :: v in ws + [w] <==> v in ws || v == w
  {
  }

  /** One step of a loop that moves `x` from the pending chunks to the
      handled ones and adds it to an accumulated set. */
  lemma MoveOne<T>(all: set<T>, remaining: set<T>, done: set<T>, base: set<T>, acc: set<T>, x: T)
    requires remaining <= all && done == all - remaining && acc == base + done && x in remaining
    ensures remaining - {x} <= all && done + {x} == all - (remaining - {x})
    ensures acc + {x} == base + (done + {x})
    ensures |remaining - {x}| < |remaining|
  {
  }

  /** One loop of `updateFogOfWarChunkStates`: a write of `state` for each
      chunk, each chunk added to the changed set, and `hasChanges` raised
      by the first one. */
  method EmitWrites(chunks: set<ChunkPos>, state: ChunkState, changed0: set<ChunkPos>, hasChanges0: bool)
    returns (writes: seq<Write>, changedChunks: set<ChunkPos>, hasChanges: bool)
    ensures forall w :: w in writes <==> w.state == state && w.pos in chunks
    ensures Distinct(writes)
    ensures changedChunks == changed0 + chunks
    ensures hasChanges <==> hasChanges0 || chunks != {}
  {
    writes := [];
    changedChunks := changed0;
    hasChanges := hasChanges0;
    var remaining := chunks;
    ghost var done: set<ChunkPos> := {};
    while remaining != {}
      invariant remaining <= chunks && done == chunks - remaining
      invariant changedChunks == changed0 + done
      invariant forall w :: w in writes <==> w.state == state && w.pos in done
      invariant Distinct(writes)
      invariant hasChanges <==> hasChanges0 || done != {}
      decreases |remaining|
    {
      var pos :| pos in remaining;
      AppendFresh(writes, Write(pos, state));
      MoveOne(chunks, remaining, done, changed0, changedChunks, pos);
      writes := writes + [Write(pos, state)];
      changedChunks := changedChunks + {pos};
      hasChanges := true;
      remaining := remaining - {pos};
      done := done + {pos};
    }
  }

  /** `updateFogOfWarChunkStates`: one VISIBLE write per visible chunk, then
      one FOGGED write per fogged chunk; every written chunk is changed,
      and when a world is present under Sodium each changed chunk gets a
      reload request. */
  method UpdateFogOfWarChunkStates(visibleChunks: set<ChunkPos>, foggedChunks: set<ChunkPos>,
                                   worldPresent: bool, sodiumLoaded: bool)
    returns (writes: seq<Write>, changedChunks: set<ChunkPos>, hasChanges: bool, reloads: set<ChunkPos>)
    ensures forall w :: w in writes <==>
      (w.state == VISIBLE && w.pos in visibleChunks) || (w.state == FOGGED && w.pos in foggedChunks)
    ensures Distinct(writes)
    ensures forall i, j :: 0 <= i < j < |writes| && writes[j].state == VISIBLE ==> writes[i].state == VISIBLE
    ensures changedChunks == visibleChunks + foggedChunks
    ensures hasChanges <==> changedChunks != {}
    ensures reloads == if hasChanges && worldPresent && sodiumLoaded then changedChunks else {}
  {
    var visibleWrites, foggedWrites;
    visibleWrites, changedChunks, hasChanges := EmitWrites(visibleChunks, VISIBLE, {}, false);
    foggedWrites, changedChunks, hasChanges := EmitWrites(foggedChunks, FOGGED, changedChunks, hasChanges);
    writes := visibleWrites + foggedWrites;
    forall i | 0 <= i < |writes|
      ensures writes[i].state == (if i < |visibleWrites| then VISIBLE else FOGGED)
    {
      if i < |visibleWrites| {
        assert writes[i] in visibleWrites;
      } else {
        assert writes[i] == foggedWrites[i - |visibleWrites|];
        assert writes[i] in foggedWrites;
      }
    }
    reloads := {};
    if hasChanges && worldPresent && sodiumLoaded {
      reloads := changedChunks;
    }
  }

  /** `updateChunkStates`. Nothing happens (`None`) when the client, its
      world or its player is missing, when there is no store, or when no
      NPC player is loaded; otherwise the classification is computed and
      its writes emitted. */
  method UpdateChunkStates(clientReady: bool, fogClient: FogOfWarClient?, entities: seq<Entity>,
                           npcUuids: set<Uuid>, isVisible: ChunkPos -> bool, sodiumLoaded: bool)
    returns (r: Option<Update>)
    ensures r.None? <==> !clientReady || fogClient == null || NpcFilter(entities, npcUuids) == []
    ensures r.Some? ==>
      && (forall c :: c in r.value.npcChunks <==> exists e :: e in entities && IsNpc(e, npcUuids) && ChunkOf(e) == c)
      && (forall c :: c in r.value.allChunks <==> Near(c, r.value.npcChunks, NPC_SCAN_RADIUS))
      && (forall c :: c in r.value.visibleChunks <==>
            c in r.value.allChunks && Near(c, r.value.npcChunks, NPC_CHECK_RADIUS) && !isVisible(c))
      && (forall c :: c in r.value.foggedChunks <==>
            c in r.value.allChunks && !Near(c, r.value.npcChunks, NPC_CHECK_RADIUS) && isVisible(c)
            && fogClient != null && !fogClient.IsFoggedChunk(c.x, c.z))
      && r.value.visibleChunks !! r.value.foggedChunks
      && (forall w :: w in r.value.writes ==> w.pos in r.value.allChunks)
      && (forall w :: w in r.value.writes <==>
            (w.state == VISIBLE && w.pos in r.value.visibleChunks) || (w.state == FOGGED && w.pos in r.value.foggedChunks))
      && r.value.changedChunks == r.value.visibleChunks + r.value.foggedChunks
      && (r.value.hasChanges <==> r.value.changedChunks != {})
      && r.value.reloads == (if r.value.hasChanges && sodiumLoaded then r.value.changedChunks else {})
  {
    if !clientReady || fogClient == null {
      return None;
    }
    var npcEntities := GetNpcEntities(true, entities, npcUuids);
    if npcEntities == [] {
      return None;
    }
    var npcChunks := CollectNpcChunks(npcEntities);
    forall c ensures c in npcChunks <==> exists e :: e in entities && IsNpc(e, npcUuids) && ChunkOf(e) == c {
      forall e ensures e in npcEntities <==> e in entities && IsNpc(e, npcUuids) {
        NpcFilterMembers(entities, npcUuids, e);
      }
    }
    var allChunks := ScanChunks(npcChunks);
    var visibleChunks, foggedChunks := ClassifyChunks(allChunks, npcChunks, isVisible, fogClient);
    var writes, changedChunks, hasChanges, reloads :=
      UpdateFogOfWarChunkStates(visibleChunks, foggedChunks, true, sodiumLoaded);
    return Some(Update(npcChunks, allChunks, visibleChunks, foggedChunks, writes, changedChunks, hasChanges, reloads));
  }
}
