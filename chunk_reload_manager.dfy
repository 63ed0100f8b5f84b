/** The Sodium rebuild request (`ChunkReloadManager.requestChunkReload`):
    every vertical section of a chunk column, from the lowest to the
    highest section of the dimension, is scheduled for an important
    rebuild. */
module ChunkReload {
  import opened Common

  /** One `scheduleRebuildForChunk(chunkX, sectionY, chunkZ, important)`. */
  datatype Rebuild = Rebuild(chunkX: int, sectionY: int, chunkZ: int, important: bool)

  /** `minY >> 4`: the section of the lowest block. */
  function MinSectionY(minY: Int32): int {
    Shr4(minY)
  }

  /** `(maxBuildHeight - 1) >> 4` with `maxBuildHeight = minY + height`,
      both in 32-bit arithmetic. */
  function MaxSectionY(minY: Int32, height: Int32): int {
    Shr4(WrapInt32(WrapInt32(minY + height) - 1))
  }

  /** The sections the loop schedules, as a count from `MinSectionY`. */
  function SectionCount(minY: Int32, height: Int32): (n: nat)
    ensures n == 0 <==> MaxSectionY(minY, height) < MinSectionY(minY)
    ensures n > 0 ==> MinSectionY(minY) + n - 1 == MaxSectionY(minY, height)
  {
    var lo, hi := MinSectionY(minY), MaxSectionY(minY, height);
    if hi < lo then 0 else hi - lo + 1
  }

  /** Section `s` lies between the lowest and the highest section. */
  predicate InSectionRange(minY: Int32, height: Int32, s: int) {
    MinSectionY(minY) <= s <= MaxSectionY(minY, height)
  }

  /** Floor division by 16 is monotone. */
  lemma Shr4Monotone(a: int, b: int)
    requires a <= b
    ensures Shr4(a) <= Shr4(b)
  {
  }

  /** When the top of the dimension does not overflow an `int`, every
      block height of the dimension lies in a scheduled section. */
  lemma EveryHeightIsCovered(minY: Int32, height: Int32, y: int)
    requires IsInt32(minY + height)
    requires minY <= y < minY + height
    ensures MinSectionY(minY) <= Shr4(y) <= MaxSectionY(minY, height)
  {
    assert WrapInt32(WrapInt32(minY + height) - 1) == minY + height - 1;
    Shr4Monotone(minY, y);
    Shr4Monotone(y, minY + height - 1);
  }

  /** A dimension at least one block high, whose top does not overflow,
      gets at least one section rebuilt. */
  lemma NonEmptyDimensionSchedules(minY: Int32, height: Int32)
    requires height >= 1 && IsInt32(minY + height)
    ensures SectionCount(minY, height) >= 1
  {
    EveryHeightIsCovered(minY, height, minY);
  }

  /** `requestChunkReload(chunkX, chunkZ)`. `clientReady` is a client with
      a world, `rendererPresent` a Sodium renderer, `minY` and `height` the
      dimension's. The requests are one per section, in increasing order,
      all important. */
  method RequestChunkReload(chunkX: Int32, chunkZ: Int32, clientReady: bool, rendererPresent: bool,
                            minY: Int32, height: Int32)
    returns (requests: seq<Rebuild>)
    ensures !clientReady || !rendererPresent ==> requests == []
    ensures clientReady && rendererPresent ==>
      && |requests| == SectionCount(minY, height)
      && forall k :: 0 <= k < |requests| ==>
           requests[k] == Rebuild(chunkX, MinSectionY(minY) + k, chunkZ, true)
  {
    requests := [];
    if !clientReady || !rendererPresent {
      return;
    }
    var maxBuildHeight := WrapInt32(minY + height);
    var minSectionY := Shr4(minY);
    var maxSectionY := Shr4(WrapInt32(maxBuildHeight - 1));
    var sectionY := minSectionY;
    while sectionY <= maxSectionY
      invariant minSectionY <= sectionY
      invariant sectionY <= maxSectionY + 1 || sectionY == minSectionY
      invariant |requests| == sectionY - minSectionY
      invariant forall k :: 0 <= k < |requests| ==> requests[k] == Rebuild(chunkX, minSectionY + k, chunkZ, true)
      decreases maxSectionY - sectionY
    {
      requests := requests + [Rebuild(chunkX, sectionY, chunkZ, true)];
      sectionY := sectionY + 1;
    }
  }

  /** The scheduled sections strictly increase, so none is scheduled
      twice, and together they are exactly the dimension's section range. */
  lemma RequestsAreDistinctAndInRange(requests: seq<Rebuild>, chunkX: Int32, chunkZ: Int32, minY: Int32, height: Int32)
    requires |requests| == SectionCount(minY, height)
    requires forall k :: 0 <= k < |requests| ==> requests[k] == Rebuild(chunkX, MinSectionY(minY) + k, chunkZ, true)
    ensures forall k1, k2 :: 0 <= k1 < k2 < |requests| ==> requests[k1].sectionY < requests[k2].sectionY
    ensures forall k :: 0 <= k < |requests| ==>
      MinSectionY(minY) <= requests[k].sectionY <= MaxSectionY(minY, height)
    ensures forall s :: InSectionRange(minY, height, s) <==>
      exists k :: 0 <= k < |requests| && requests[k].sectionY == s
  {
    forall s | InSectionRange(minY, height, s)
      ensures exists k :: 0 <= k < |requests| && requests[k].sectionY == s
    {
      var k := s - MinSectionY(minY);
      assert requests[k].sectionY == s;
    }
  }
}
