/** The vanilla render path (`ChunkRenderRegionMixin`): when a block of a
    fogged chunk is looked up for rendering, the block recorded in that
    chunk's snapshot is shown instead, or the chunk's fog block when the
    snapshot has no record of the position. */
module RenderRegion {
  import opened Common
  import opened FogOfWar

  /** A `BlockPos`: three Java `int` coordinates. */
  datatype BlockPos = BlockPos(x: Int32, y: Int32, z: Int32)

  /** Where a position lies inside its chunk: the offsets `x & 15`,
      `y & 15`, `z & 15` and the section index `y >> 4`. */
  datatype Local = Local(relX: int, relY: int, relZ: int, sectionY: int)

  /** The chunk of a position, `(x >> 4, z >> 4)`. */
  function ChunkOfPos(p: BlockPos): ChunkPos {
    ChunkPos(Shr4(p.x), Shr4(p.z))
  }

  /** The relative coordinates of a position. Each offset lies in [0, 16)
      and the position is recovered from its chunk, its section and its
      offsets. */
  function LocalOf(p: BlockPos): (l: Local)
    ensures 0 <= l.relX < 16 && 0 <= l.relY < 16 && 0 <= l.relZ < 16
    ensures 16 * ChunkOfPos(p).x + l.relX == p.x
    ensures 16 * l.sectionY + l.relY == p.y
    ensures 16 * ChunkOfPos(p).z + l.relZ == p.z
    ensures -0x800_0000 <= l.sectionY < 0x800_0000
  {
    ShiftAndMask(p.x);
    ShiftAndMask(p.y);
    ShiftAndMask(p.z);
    Local(And15(p.x), And15(p.y), And15(p.z), Shr4(p.y))
  }

  /** Two positions with the same chunk and the same relative coordinates
      are the same position: the lookup key loses nothing. */
  lemma LocalOfInjective(p: BlockPos, q: BlockPos)
    requires ChunkOfPos(p) == ChunkOfPos(q) && LocalOf(p) == LocalOf(q)
    ensures p == q
  {
    var lp, lq := LocalOf(p), LocalOf(q);
    assert p.x == 16 * ChunkOfPos(p).x + lp.relX == q.x;
    assert p.y == 16 * lp.sectionY + lp.relY == q.y;
    assert p.z == 16 * ChunkOfPos(p).z + lp.relZ == q.z;
  }

  // ---------------------------------------------------------------------
  // The snapshot search

  /** `NbtCompound.getInt`: a missing member reads as 0. */
  function IntOf(v: Option<int>): int {
    v.GetOr(0)
  }

  /** `NbtCompound.getString`: a missing member reads as "". */
  function StringOf(v: Option<string>): string {
    v.GetOr("")
  }

  /** A block entry records the position with relative coordinates `l`. */
  predicate MatchesAt(b: BlockEntry, l: Local) {
    IntOf(b.x) == l.relX && IntOf(b.y) == l.relY && IntOf(b.z) == l.relZ
  }

  /** The block state a matching entry stands for. `registry` is
      `Registries.BLOCK.get(Identifier.of(id))`: `None` when `Identifier.of`
      throws, which shows as bedrock; otherwise the registered block (air
      for an id nobody registered), in its default state. */
  function BlockFor(b: BlockEntry, registry: string -> Option<string>): (r: BlockState)
    ensures r.variant == 0
    ensures registry(StringOf(b.id)).None? ==> r.block == BEDROCK
    ensures registry(StringOf(b.id)).Some? ==> r.block == registry(StringOf(b.id)).value
  {
    match registry(StringOf(b.id))
    case Some(block) => DefaultState(block)
    case None => DefaultState(BEDROCK)
  }

  /** The inner loop, from the front: the first matching entry. */
  function FindInBlocks(bs: seq<BlockEntry>, l: Local, registry: string -> Option<string>): Option<BlockState>
    decreases |bs|
  {
    if bs == [] then None
    else if MatchesAt(bs[0], l) then Some(BlockFor(bs[0], registry))
    else FindInBlocks(bs[1..], l, registry)
  }

  /** The outer loop, from the front: a section whose `y` is the wanted
      section index is searched, and the search moves on to the later
      sections when it holds no match. */
  function FindInSections(ss: seq<Section>, l: Local, registry: string -> Option<string>): Option<BlockState>
    decreases |ss|
  {
    if ss == [] then None
    else
      var inFirst := if IntOf(ss[0].y) == l.sectionY then FindInBlocks(ss[0].blocks, l, registry) else None;
      if inFirst.Some? then inFirst else FindInSections(ss[1..], l, registry)
  }

  /** `getBlockStateFromSnapshot` as a function of the chunk's snapshot:
      nothing without a snapshot or without a `sections` list. */
  function SnapshotBlock(snap: Option<Snapshot>, p: BlockPos, registry: string -> Option<string>): Option<BlockState> {
    if snap.None? || snap.value.sections.None? then None
    else FindInSections(snap.value.sections.value, LocalOf(p), registry)
  }

  /** Entry `j` of section `i` records the position: the section has the
      wanted index and the entry the wanted offsets. */
  ghost predicate Hit(ss: seq<Section>, l: Local, i: int, j: int) {
    && 0 <= i < |ss| && IntOf(ss[i].y) == l.sectionY
    && 0 <= j < |ss[i].blocks| && MatchesAt(ss[i].blocks[j], l)
  }

  /** `(i, j)` is the first hit in the order the loops visit entries. */
  ghost predicate FirstHit(ss: seq<Section>, l: Local, i: int, j: int) {
    Hit(ss, l, i, j) && forall i2, j2 :: Hit(ss, l, i2, j2) ==> i < i2 || (i == i2 && j <= j2)
  }

  /** The inner search finds a block exactly when some entry matches, and
      then it is the block of the first matching entry. */
  lemma {:induction false} FindInBlocksFirstMatch(bs: seq<BlockEntry>, l: Local, registry: string -> Option<string>)
    ensures FindInBlocks(bs, l, registry).None? <==> forall j | 0 <= j < |bs| :: !MatchesAt(bs[j], l)
    ensures forall j | 0 <= j < |bs| && MatchesAt(bs[j], l) && (forall k | 0 <= k < j :: !MatchesAt(bs[k], l)) ::
      FindInBlocks(bs, l, registry) == Some(BlockFor(bs[j], registry))
    decreases |bs|
  {
    if bs != [] && !MatchesAt(bs[0], l) {
      var rest := bs[1..];
      FindInBlocksFirstMatch(rest, l, registry);
      forall j | 1 <= j < |bs| ensures bs[j] == rest[j - 1] {}
      forall j | 0 <= j < |rest| ensures rest[j] == bs[j + 1] {}
    }
  }

  /** Hits in `[s] + rest` are the hits of `s` (as section 0) and the hits
      of `rest`, one section further on. */
  lemma HitShift(ss: seq<Section>, l: Local, i: int, j: int)
    requires ss != []
    ensures i >= 1 ==> (Hit(ss, l, i, j) <==> Hit(ss[1..], l, i - 1, j))
  {
    if i >= 1 && i < |ss| {
      assert ss[1..][i - 1] == ss[i];
    }
  }

  /** The section search finds a block exactly when some entry of some
      section with the wanted index matches, and then it is the block of
      the first such entry, sections in order and entries in order. */
  lemma {:induction false} FindInSectionsFirstHit(ss: seq<Section>, l: Local, registry: string -> Option<string>)
    ensures FindInSections(ss, l, registry).None? <==> forall i, j :: !Hit(ss, l, i, j)
    ensures forall i, j :: FirstHit(ss, l, i, j) ==>
      FindInSections(ss, l, registry) == Some(BlockFor(ss[i].blocks[j], registry))
    decreases |ss|
  {
    if ss != [] {
      var rest := ss[1..];
      FindInSectionsFirstHit(rest, l, registry);
      FindInBlocksFirstMatch(ss[0].blocks, l, registry);
      forall i, j ensures i >= 1 ==> (Hit(ss, l, i, j) <==> Hit(rest, l, i - 1, j)) {
        HitShift(ss, l, i, j);
      }
      var bs := ss[0].blocks;
      var inFirst := if IntOf(ss[0].y) == l.sectionY then FindInBlocks(bs, l, registry) else None;
      if inFirst.Some? {
        var j0 :| 0 <= j0 < |bs| && MatchesAt(bs[j0], l);
        assert Hit(ss, l, 0, j0);
        forall i, j | FirstHit(ss, l, i, j)
          ensures FindInSections(ss, l, registry) == Some(BlockFor(ss[i].blocks[j], registry))
        {
          assert i == 0 by { assert Hit(ss, l, 0, j0); }
          forall k | 0 <= k < j ensures !MatchesAt(bs[k], l) {
            assert Hit(ss, l, 0, k) ==> j <= k;
          }
        }
      } else {
        forall j ensures !Hit(ss, l, 0, j) {}
        forall i, j | FirstHit(ss, l, i, j)
          ensures FindInSections(ss, l, registry) == Some(BlockFor(ss[i].blocks[j], registry))
        {
          assert i >= 1;
          assert Hit(rest, l, i - 1, j);
          forall i2, j2 | Hit(rest, l, i2, j2) ensures i - 1 < i2 || (i - 1 == i2 && j <= j2) {
            HitShift(ss, l, i2 + 1, j2);
            assert Hit(ss, l, i2 + 1, j2);
          }
          assert FirstHit(rest, l, i - 1, j);
          assert rest[i - 1] == ss[i];
        }
        if forall i, j :: !Hit(rest, l, i, j) {
          forall i, j ensures !Hit(ss, l, i, j) {
            HitShift(ss, l, i, j);
          }
        }
        if forall i, j :: !Hit(ss, l, i, j) {
          forall i, j ensures !Hit(rest, l, i, j) {
            HitShift(ss, l, i + 1, j);
          }
        }
      }
    }
  }

  /** `getBlockStateFromSnapshot(chunkX, chunkZ, pos)`: the two loops over
      the snapshot of chunk `(chunkX, chunkZ)`, returning at the first
      matching entry. */
  method GetBlockStateFromSnapshot(client: FogOfWarClient, chunkX: int, chunkZ: int, pos: BlockPos,
                                   registry: string -> Option<string>)
    returns (r: Option<BlockState>)
    ensures r == SnapshotBlock(client.GetChunkSnapshot(chunkX, chunkZ), pos, registry)
  {
    var snapshot := client.GetChunkSnapshot(chunkX, chunkZ);
    if snapshot.None? {
      return None;
    }
    var l := LocalOf(pos);
    if snapshot.value.sections.None? {
      return None;
    }
    var sections := snapshot.value.sections.value;
    for i := 0 to |sections|
      invariant FindInSections(sections, l, registry) == FindInSections(sections[i..], l, registry)
    {
      assert sections[i..][1..] == sections[i + 1..];
      var section := sections[i];
      if IntOf(section.y) == l.sectionY {
        var blocks := section.blocks;
        for j := 0 to |blocks|
          invariant FindInBlocks(blocks, l, registry) == FindInBlocks(blocks[j..], l, registry)
        {
          assert blocks[j..][1..] == blocks[j + 1..];
          var block := blocks[j];
          if MatchesAt(block, l) {
            return Some(BlockFor(block, registry));
          }
        }
        assert blocks[|blocks|..] == [];
      }
    }
    assert sections[|sections|..] == [];
    return None;
  }

  // ---------------------------------------------------------------------
  // The override decision

  /** What the injected head of `getBlockState` does: let the original
      lookup run, or cancel it and return `value`. */
  datatype Override = KeepOriginal | ReturnValue(value: BlockState)

  /** `onGetBlockState` as a function of the store; `None` is a missing
      `FogOfWarClient` instance. */
  function RenderOverride(s: Option<Store>, p: BlockPos, registry: string -> Option<string>): (r: Override)
    ensures s.None? ==> r.KeepOriginal?
    ensures s.Some? ==> (r.ReturnValue? <==> s.value.IsFogged(ChunkOfPos(p)))
  {
    if s.None? || !s.value.IsFogged(ChunkOfPos(p)) then KeepOriginal
    else
      var c := ChunkOfPos(p);
      match SnapshotBlock(s.value.SnapshotAt(c), p, registry)
      case Some(state) => ReturnValue(state)
      case None => ReturnValue(s.value.FogBlockAt(c))
  }

  /** A fogged chunk renders, at a position its snapshot records, the
      block of the first entry that records it. */
  lemma FoggedChunkShowsRecordedBlock(s: Store, p: BlockPos, registry: string -> Option<string>, i: int, j: int)
    requires s.IsFogged(ChunkOfPos(p))
    requires ChunkOfPos(p) in s.chunkSnapshots && s.chunkSnapshots[ChunkOfPos(p)].sections.Some?
    requires FirstHit(s.chunkSnapshots[ChunkOfPos(p)].sections.value, LocalOf(p), i, j)
    ensures RenderOverride(Some(s), p, registry)
      == ReturnValue(BlockFor(s.chunkSnapshots[ChunkOfPos(p)].sections.value[i].blocks[j], registry))
  {
    FindInSectionsFirstHit(s.chunkSnapshots[ChunkOfPos(p)].sections.value, LocalOf(p), registry);
  }

  /** A fogged chunk renders its fog block (its own, else the default) at
      a position for which it has no snapshot, no `sections` list, or no
      entry. */
  lemma FoggedChunkFallsBackToFogBlock(s: Store, p: BlockPos, registry: string -> Option<string>)
    requires s.IsFogged(ChunkOfPos(p))
    requires ChunkOfPos(p) in s.chunkSnapshots && s.chunkSnapshots[ChunkOfPos(p)].sections.Some? ==>
      forall i, j :: !Hit(s.chunkSnapshots[ChunkOfPos(p)].sections.value, LocalOf(p), i, j)
    ensures RenderOverride(Some(s), p, registry) == ReturnValue(s.FogBlockAt(ChunkOfPos(p)))
  {
    var c := ChunkOfPos(p);
    if c in s.chunkSnapshots && s.chunkSnapshots[c].sections.Some? {
      FindInSectionsFirstHit(s.chunkSnapshots[c].sections.value, LocalOf(p), registry);
    }
  }

  /** Authority updates never write the fogged-chunk set, so they never
      change whether this path overrides a lookup. */
  lemma AuthorityUpdateKeepsOverrideDecision(s: Store, m: Message, p: BlockPos, registry: string -> Option<string>,
                                             resolve: string -> Option<BlockState>, decode: string -> Option<Snapshot>)
    ensures RenderOverride(Some(ApplyMessage(s, m, resolve, decode)), p, registry).ReturnValue?
      == RenderOverride(Some(s), p, registry).ReturnValue?
  {
    MessageKeepsFoggedSet(s, m, resolve, decode);
  }

  /** `onGetBlockState(pos, cir)`; `client == null` is a missing instance. */
  method OnGetBlockState(client: FogOfWarClient?, pos: BlockPos, registry: string -> Option<string>)
    returns (r: Override)
    ensures r == RenderOverride(if client == null then None else Some(client.View()), pos, registry)
  {
    var chunkX := Shr4(pos.x);
    var chunkZ := Shr4(pos.z);
    if client == null {
      return KeepOriginal;
    }
    if client.IsFoggedChunk(chunkX, chunkZ) {
      var state := GetBlockStateFromSnapshot(client, chunkX, chunkZ, pos, registry);
      if state.Some? {
        return ReturnValue(state.value);
      } else {
        return ReturnValue(client.GetFogBlock(chunkX, chunkZ));
      }
    }
    return KeepOriginal;
  }
}
