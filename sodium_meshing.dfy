/** The Sodium render path (`SodiumChunkBuilderMeshingTaskMixin`): each
    block read while a chunk section is meshed is replaced according to the
    fog state of its chunk. */
module SodiumMeshing {
  import opened Common
  import opened FogOfWar

  /** `redirectGetBlockState(slice, x, y, z)`.
      - `original` is `slice.getBlockState(x, y, z)`; `None` is null.
      - `fog` is the `FogOfWarClient` instance; `None` is a missing one.
      - `originalBlockAt` is the store's `getOriginalBlockState(x, y, z)`;
        `None` is null.
      - `isVisible` is the store's `isVisibleChunk`.
      In a fogged chunk without a snapshot block, building the log line
      dereferences the null block; the inner handler catches the exception
      and returns the original block. */
  function RedirectGetBlockState(original: Option<BlockState>, x: Int32, y: Int32, z: Int32, fog: Option<Store>,
                                 originalBlockAt: (int, int, int) -> Option<BlockState>,
                                 isVisible: ChunkPos -> bool): (r: Option<BlockState>)
    ensures original.None? || IsAir(original.value) ==> r == original
    ensures fog.None? ==> r == original
    ensures r == original || r == Some(DefaultState(AIR)) || r == Some(DefaultState(DIRT)) || r == Some(DefaultState(STONE))
  {
    if original.None? || IsAir(original.value) then original
    else
      var chunk := ChunkPos(Shr4(x), Shr4(z));
      if fog.None? then original
      else if fog.value.IsFogged(chunk) then
        match originalBlockAt(x, y, z)
        case Some(snapshotState) => Some(FogSubstitute(snapshotState))
        case None => original
      else if isVisible(chunk) then original
      else Some(DefaultState(AIR))
  }

  /** The block a fogged chunk shows for a snapshot block: solid ground as
      dirt, liquid as stone, anything else as air. */
  function FogSubstitute(snapshotState: BlockState): (r: BlockState)
    ensures r.variant == 0
    ensures IsOf(snapshotState, STONE) <==> IsOf(r, DIRT)
    ensures IsOf(snapshotState, WATER) <==> IsOf(r, STONE)
    ensures !IsOf(snapshotState, STONE) && !IsOf(snapshotState, WATER) <==> IsAir(r)
  {
    if IsOf(snapshotState, STONE) then DefaultState(DIRT)
    else if IsOf(snapshotState, WATER) then DefaultState(STONE)
    else DefaultState(AIR)
  }

  /** A non-air block of a fogged chunk with a snapshot block is replaced
      by that block's substitute: what is really there does not matter. */
  lemma FoggedChunkShowsSubstitute(original: Option<BlockState>, x: Int32, y: Int32, z: Int32, fog: Option<Store>,
                                   originalBlockAt: (int, int, int) -> Option<BlockState>, isVisible: ChunkPos -> bool)
    requires original.Some? && !IsAir(original.value)
    requires fog.Some? && fog.value.IsFogged(ChunkPos(Shr4(x), Shr4(z)))
    requires originalBlockAt(x, y, z).Some?
    ensures var r := RedirectGetBlockState(original, x, y, z, fog, originalBlockAt, isVisible);
      && (IsOf(originalBlockAt(x, y, z).value, STONE) ==> r == Some(DefaultState(DIRT)))
      && (IsOf(originalBlockAt(x, y, z).value, WATER) ==> r == Some(DefaultState(STONE)))
      && (!IsOf(originalBlockAt(x, y, z).value, STONE) && !IsOf(originalBlockAt(x, y, z).value, WATER)
          ==> r == Some(DefaultState(AIR)))
  {
  }

  /** Outside the fogged chunks a non-air block stays exactly when its
      chunk is visible and becomes air otherwise. */
  lemma UnfoggedChunkShowsVisibleOnly(original: Option<BlockState>, x: Int32, y: Int32, z: Int32, fog: Option<Store>,
                                      originalBlockAt: (int, int, int) -> Option<BlockState>, isVisible: ChunkPos -> bool)
    requires original.Some? && !IsAir(original.value)
    requires fog.Some? && !fog.value.IsFogged(ChunkPos(Shr4(x), Shr4(z)))
    ensures var r := RedirectGetBlockState(original, x, y, z, fog, originalBlockAt, isVisible);
      (r == original <==> isVisible(ChunkPos(Shr4(x), Shr4(z)))) && (r != original ==> r == Some(DefaultState(AIR)))
  {
  }

  /** As written, a fogged chunk without a snapshot block shows the live
      block, since the null dereference in the log line is caught by the
      handler that returns the original. */
  lemma FoggedChunkWithoutSnapshotKeepsOriginal(original: Option<BlockState>, x: Int32, y: Int32, z: Int32,
                                                fog: Option<Store>, originalBlockAt: (int, int, int) -> Option<BlockState>,
                                                isVisible: ChunkPos -> bool)
    requires fog.Some? && fog.value.IsFogged(ChunkPos(Shr4(x), Shr4(z)))
    requires originalBlockAt(x, y, z).None?
    ensures RedirectGetBlockState(original, x, y, z, fog, originalBlockAt, isVisible) == original
  {
  }

  /** The same decision with the null case reaching the `return AIR` the
      code intends for it. */
  function RedirectIntended(original: Option<BlockState>, x: Int32, y: Int32, z: Int32, fog: Option<Store>,
                            originalBlockAt: (int, int, int) -> Option<BlockState>,
                            isVisible: ChunkPos -> bool): (r: Option<BlockState>)
    ensures original.None? || IsAir(original.value) ==> r == original
    ensures fog.None? ==> r == original
  {
    if original.None? || IsAir(original.value) then original
    else
      var chunk := ChunkPos(Shr4(x), Shr4(z));
      if fog.None? then original
      else if fog.value.IsFogged(chunk) then
        match originalBlockAt(x, y, z)
        case Some(snapshotState) => Some(FogSubstitute(snapshotState))
        case None => Some(DefaultState(AIR))
      else if isVisible(chunk) then original
      else Some(DefaultState(AIR))
  }

  /** With the intended fallback, what a fogged chunk shows at a non-air
      position depends on the snapshot alone: two different live blocks
      render the same. */
  lemma IntendedHidesLiveBlocks(o1: BlockState, o2: BlockState, x: Int32, y: Int32, z: Int32, fog: Store,
                                originalBlockAt: (int, int, int) -> Option<BlockState>, isVisible: ChunkPos -> bool)
    requires !IsAir(o1) && !IsAir(o2)
    requires fog.IsFogged(ChunkPos(Shr4(x), Shr4(z)))
    ensures RedirectIntended(Some(o1), x, y, z, Some(fog), originalBlockAt, isVisible)
      == RedirectIntended(Some(o2), x, y, z, Some(fog), originalBlockAt, isVisible)
    ensures RedirectIntended(Some(o1), x, y, z, Some(fog), originalBlockAt, isVisible).Some?
    ensures RedirectIntended(Some(o1), x, y, z, Some(fog), originalBlockAt, isVisible).value.variant == 0
  {
  }

  /** The intended decision differs from the written one only where the
      snapshot has no block for the position. */
  lemma IntendedAgreesElsewhere(original: Option<BlockState>, x: Int32, y: Int32, z: Int32, fog: Option<Store>,
                                originalBlockAt: (int, int, int) -> Option<BlockState>, isVisible: ChunkPos -> bool)
    requires fog.None? || !fog.value.IsFogged(ChunkPos(Shr4(x), Shr4(z))) || originalBlockAt(x, y, z).Some?
    ensures RedirectIntended(original, x, y, z, fog, originalBlockAt, isVisible)
      == RedirectGetBlockState(original, x, y, z, fog, originalBlockAt, isVisible)
  {
  }

  /** The written decision leaks the live world into a fogged chunk: at a
      fogged position without a snapshot block, stone and dirt in the world
      render differently. */
  lemma WrittenLeaksLiveBlocks()
    ensures var fog := Store({ChunkPos(0, 0)}, map[], map[], map[], DefaultState(GRAY_CONCRETE));
      var none := (x: int, y: int, z: int) => None;
      var visible := (c: ChunkPos) => false;
      RedirectGetBlockState(Some(DefaultState(STONE)), 0, 0, 0, Some(fog), none, visible)
        != RedirectGetBlockState(Some(DefaultState(DIRT)), 0, 0, 0, Some(fog), none, visible)
  {
    var fog := Store({ChunkPos(0, 0)}, map[], map[], map[], DefaultState(GRAY_CONCRETE));
    var none := (x: int, y: int, z: int) => None;
    var visible := (c: ChunkPos) => false;
    assert fog.IsFogged(ChunkPos(Shr4(0), Shr4(0)));
    assert STONE != DIRT;
    FoggedChunkWithoutSnapshotKeepsOriginal(Some(DefaultState(STONE)), 0, 0, 0, Some(fog), none, visible);
    FoggedChunkWithoutSnapshotKeepsOriginal(Some(DefaultState(DIRT)), 0, 0, 0, Some(fog), none, visible);
  }
}
