/** Definitions shared by every component: optional values, the chunk key,
    Java's 32-bit integer operators and the block-state tokens of the game. */
module Common {

  datatype Option<+T> = None | Some(value: T) {
    function GetOr(default: T): T {
      match this
      case Some(v) => v
      case None => default
    }
  }

  // ---------------------------------------------------------------------
  // Java `int`

  const INT_MIN: int := -0x8000_0000
  const INT_MAX: int := 0x7FFF_FFFF

  predicate IsInt32(x: int) {
    INT_MIN <= x <= INT_MAX
  }

  /** The values of a Java `int`. */
  type Int32 = x: int | INT_MIN <= x <= INT_MAX

  /** The two's-complement reading of `v` modulo 2^32: what a Java `int`
      expression whose exact value is `v` evaluates to. */
  function WrapInt32(v: int): (r: int)
    ensures IsInt32(r)
    ensures (r - v) % 0x1_0000_0000 == 0
    ensures IsInt32(v) ==> r == v
  {
    (v - INT_MIN) % 0x1_0000_0000 + INT_MIN
  }

  /** Java `x >> 4` on an int. The Java Language Specification (section
      15.19) defines `n >> s` as floor(n / 2^s); Dafny's `/` by a positive
      divisor is floor division, negative operands included. */
  function Shr4(x: int): int {
    x / 16
  }

  /** Java `x & 15` on an int: the low four bits of the two's-complement
      representation, which is the non-negative remainder modulo 16. */
  function And15(x: int): int {
    x % 16
  }

  /** A Java `int` shifted right by four stays a Java `int`, and splits
      back into its section and its offset. */
  lemma ShiftAndMask(x: int)
    requires IsInt32(x)
    ensures 0 <= And15(x) < 16
    ensures 16 * Shr4(x) + And15(x) == x
    ensures -0x800_0000 <= Shr4(x) < 0x800_0000
  {
  }

  // ---------------------------------------------------------------------
  // Chunk positions

  /** `ChunkPosition`: an (x, z) pair of chunk coordinates with value
      equality, the key of every store map. */
  datatype ChunkPos = ChunkPos(x: int, z: int)

  /** `ChunkPosition.equals(Object)`: `None` stands for null or an object of
      another class, which are never equal to a position. */
  function PosEquals(a: ChunkPos, o: Option<ChunkPos>): (r: bool)
    ensures r <==> o == Some(a)
  {
    o.Some? && a.x == o.value.x && a.z == o.value.z
  }

  /** `ChunkPosition.hashCode()`: 31 * x + z in 32-bit arithmetic. */
  function PosHashCode(a: ChunkPos): (r: int)
    ensures IsInt32(r)
  {
    WrapInt32(31 * a.x + a.z)
  }

  /** `equals` is an equivalence relation and agrees with `hashCode`, so
      the hash-based collections of the source behave as sets of values. */
  lemma PosEqualsContract(a: ChunkPos, b: ChunkPos, c: ChunkPos)
    ensures PosEquals(a, Some(a))
    ensures PosEquals(a, Some(b)) <==> PosEquals(b, Some(a))
    ensures PosEquals(a, Some(b)) && PosEquals(b, Some(c)) ==> PosEquals(a, Some(c))
    ensures PosEquals(a, Some(b)) ==> PosHashCode(a) == PosHashCode(b)
    ensures !PosEquals(a, None)
  {
  }

  /** Chebyshev (chessboard) distance between two chunks. */
  function Chebyshev(a: ChunkPos, b: ChunkPos): (d: nat)
    ensures d == 0 <==> a == b
  {
    var dx := if a.x >= b.x then a.x - b.x else b.x - a.x;
    var dz := if a.z >= b.z then a.z - b.z else b.z - a.z;
    if dx >= dz then dx else dz
  }

  // ---------------------------------------------------------------------
  // Block states

  /** A block state: the registry id of its block and an opaque index of
      its property values (0 is the block's default state). */
  datatype BlockState = BlockState(block: string, variant: nat)

  const AIR: string := "minecraft:air"
  const CAVE_AIR: string := "minecraft:cave_air"
  const VOID_AIR: string := "minecraft:void_air"
  const STONE: string := "minecraft:stone"
  const DIRT: string := "minecraft:dirt"
  const WATER: string := "minecraft:water"
  const BEDROCK: string := "minecraft:bedrock"
  const GRAY_CONCRETE: string := "minecraft:gray_concrete"

  /** `Block.getDefaultState()`. */
  function DefaultState(block: string): BlockState {
    BlockState(block, 0)
  }

  /** `BlockState.isOf(block)`. */
  predicate IsOf(s: BlockState, block: string) {
    s.block == block
  }

  /** `BlockState.isAir()`: the three air blocks of the game. */
  predicate IsAir(s: BlockState) {
    s.block == AIR || s.block == CAVE_AIR || s.block == VOID_AIR
  }

  // ---------------------------------------------------------------------
  // Strings

  /** `String.toUpperCase()` restricted to ASCII letters. */
  function UpperAscii(s: string): (r: string)
    ensures |r| == |s|
    ensures forall i :: 0 <= i < |s| ==>
      r[i] == if 'a' <= s[i] <= 'z' then (s[i] as int - 32) as char else s[i]
  {
    if s == [] then []
    else [if 'a' <= s[0] <= 'z' then (s[0] as int - 32) as char else s[0]] + UpperAscii(s[1..])
  }

  predicate StartsWith(s: string, prefix: string) {
    |prefix| <= |s| && s[..|prefix|] == prefix
  }

  predicate EndsWith(s: string, suffix: string) {
    |suffix| <= |s| && s[|s| - |suffix|..] == suffix
  }

  predicate Contains(s: string, c: char) {
    exists i :: 0 <= i < |s| && s[i] == c
  }
}
