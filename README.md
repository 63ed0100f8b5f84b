# CivArmyMod fog of war, modelled in Dafny

CivArmyMod is a Minecraft client mod. It keeps, for every chunk of the world, a
visibility state (VISIBLE, FOGGED or HIDDEN), a fog block and a snapshot of
what the chunk looked like. It keeps those in step with a remote authority that
pushes JSON messages, and with a local proximity rule: chunks near NPC players
become visible, chunks that lose their NPCs become fogged. The render paths
read this store to decide what a fogged chunk shows.

The project models the logic of that core, one Dafny module per source file:

| module | file | what it holds |
|---|---|---|
| `Common` | `common.dfy` | `Option`, Java `int` arithmetic (`>> 4`, `& 15`, 32-bit wrap), `ChunkPosition`, block states |
| `Json` | `json.dfy` | the shapes of the Gson values the code reads (`getAsString`, `getAsBoolean`) |
| `FogOfWar` | `fog_of_war_client.dfy` | the store (`FogOfWarClient`) as a class over `set`/`map` fields, and the authority update, proved against a function of the old store |
| `NpcRegistry` | `npc_manager.dfy` | the NPC UUID set (`NPCManager`) with its notification log and the JSON batch ingestion |
| `NpcChunks` | `npc_chunk_manager.dfy` | the proximity classifier (`NPCChunkManager`): scan squares, the neighbourhood test, the delta sets and the emitted writes |
| `FogApi` | `fog_api_client.dfy` | endpoint normalisation (`FogAPIClient.setApiEndpoint`) and the connect URI |
| `RenderRegion` | `chunk_render_region.dfy` | the vanilla render path (`ChunkRenderRegionMixin`): relative coordinates, the snapshot search, the override decision |
| `SodiumMeshing` | `sodium_meshing.dfy` | the Sodium per-block substitution (`SodiumChunkBuilderMeshingTaskMixin`) |
| `ChunkReload` | `chunk_reload_manager.dfy` | the section range of a chunk rebuild (`ChunkReloadManager`) |

How things the code does not define, or that lie outside it, are represented:

- Opaque library results are parameters that are partial functions:
  - `resolve` is the block registry lookup; `None` means `Identifier.of` throws.
  - `decode` is `FogAPIClient.decodeSnapshot`; `None` means it returned null.
  - `parse` is `UUID.fromString` on a non-null string; `None` means it threw
    `IllegalArgumentException`.
  - `registry` is the block id lookup of the render path.
- The store methods `isVisibleChunk`, `setChunkState` and `getOriginalBlockState`
  are called by the code but not defined in `FogOfWarClient.java`.
  - The two reads (`isVisibleChunk`, `getOriginalBlockState`) are input functions.
  - `setChunkState` is recorded as a sequence of emitted writes.
- An exception that escapes a loop is modelled as ending that loop; the state
  written before it stays. Each exception the code can raise from its own
  inputs is a case of the input datatypes: a member whose scalar read throws, a
  coordinate that `getAsInt` rejects, an element that is not an object.
- Gson's scalar reads (`getAsString`, `getAsBoolean`) read a primitive as itself
  and a one-element array through its element. They throw on null, on an object
  and on an array of any other size (`Json.SingleValue`).
- Java `x >> 4` on `int` is floor division by 16 (section 15.19 of the Java
  Language Specification). `x & 15` keeps the low four bits of the two's
  complement value (section 15.22.1), which is the non-negative remainder by 16. `ChunkPosition.hashCode` and `minY + height` wrap modulo 2^32.

Behaviour of the code that a reader might not expect, which the model keeps:

- Every listed chunk of an authority message gets a fog block, VISIBLE and HIDDEN
  ones included, so a VISIBLE chunk also holds a fog block entry
  (`VisibleEntryGetsFogBlock`).
- A listed chunk keeps its old snapshot unless its entry carries one that decodes,
  whatever its new state.
- A chunk with no state entry is hidden (`getOrDefault(pos, HIDDEN)`).
- A malformed entry ends the processing of the whole message: the entries before it
  stay applied, the later entries are not processed and the reset sweep does not
  run. Only an unknown `state` text falls back (to FOGGED).
- The reset sweep walks only the `chunkStates` keys, so a snapshot or fog block of a
  chunk that has no state survives it (`SweepSparesStatelessSnapshot`).
- The snapshot is an NBT compound of sections and block entries, searched by the
  render path. It is decoded from the Base64 text of the `snapshot` member by
  `FogAPIClient.decodeSnapshot`, an input function here.
- The snapshot search of the render path does not stop at the first section whose
  `y` matches: when that section records nothing for the position, the later
  sections are searched too.
- The Sodium path does not return AIR for a fogged position without a snapshot
  block, as its comments intend; see Findings.

## Model

| member | source | states |
|---|---|---|
| Common.WrapInt32 | src/client/java/net/civarmymod/ChunkReloadManager.java:36-42 | the value of a Java `int` expression: in the `int` range, congruent to the exact value modulo 2^32, and the exact value whenever that fits |
| Common.ShiftAndMask | src/client/java/net/civarmymod/mixin/ChunkRenderRegionMixin.java:73-76 | for a Java `int`, `x & 15` lies in [0, 16), `16 * (x >> 4) + (x & 15) == x`, and `x >> 4` fits in 28 bits |
| Common.PosEquals | src/client/java/net/civarmymod/FogOfWarClient.java:475-481 | a position equals exactly the same position; null or an object of another class is never equal |
| Common.PosHashCode | src/client/java/net/civarmymod/FogOfWarClient.java:483-485 | `31 * x + z` is a Java `int` (wrapped) |
| Common.PosEqualsContract | src/client/java/net/civarmymod/FogOfWarClient.java:475-485 | `equals` is reflexive, symmetric and transitive, never holds for null, and equal positions have equal hash codes |
| Common.UpperAscii | src/client/java/net/civarmymod/FogOfWarClient.java:211 | `toUpperCase` keeps the length, raises each lower-case ASCII letter and keeps every other char |
| FogOfWar.ValueOf | src/client/java/net/civarmymod/FogOfWarClient.java:54-58 | `ChunkState.valueOf` yields each constant exactly for its own name, and throws for anything else |
| Json.SingleValueIsNested | src/client/java/net/civarmymod/FogOfWarClient.java:211 | a scalar read of a member succeeds with primitive `p` exactly when the member is `p` wrapped in some number of one-element arrays |
| Json.GetAsString | src/client/java/net/civarmymod/FogOfWarClient.java:227 | `getAsString()` throws exactly when the scalar read finds no single primitive; on a primitive it is the primitive's text |
| Json.GetAsBoolean | src/client/java/net/civarmymod/FogOfWarClient.java:253 | `getAsBoolean()` throws exactly when the scalar read finds no single primitive; on a primitive it is the primitive's boolean reading |
| FogOfWar.EntryState | src/client/java/net/civarmymod/FogOfWarClient.java:210-223 | an entry's state throws exactly when the member is present and `getAsString()` throws on it (null, an object, an array whose size is not one); the text of a one-element array is its element's; it is VISIBLE or HIDDEN exactly when the upper-cased text names it; it is FOGGED when the member is missing or names anything else |
| FogOfWar.EntryFogBlock | src/client/java/net/civarmymod/FogOfWarClient.java:226-238 | throws exactly when the member is present and `getAsString()` throws on it; a missing member or a failed lookup gives the default fog block; a successful lookup gives the resolved block |
| FogOfWar.EntrySnapshot | src/client/java/net/civarmymod/FogOfWarClient.java:241-249 | throws exactly when the member is present and `getAsString()` throws on it; installs a snapshot exactly when the member is present and decodes, and then it is the decoded one; otherwise the old snapshot stays |
| FogOfWar.ApplyEntryFrame | src/client/java/net/civarmymod/FogOfWarClient.java:201-249 | one entry changes the three maps only at the chunk it names, and never the fogged set or the default fog block |
| FogOfWar.ListedMembers | src/client/java/net/civarmymod/FogOfWarClient.java:198-207 | a chunk is in `updatedChunks` exactly when some entry with readable coordinates names it |
| FogOfWar.AbortIsFinal | src/client/java/net/civarmymod/FogOfWarClient.java:192-276 | once an entry has thrown, the remaining entries change nothing |
| FogOfWar.EntriesFrame | src/client/java/net/civarmymod/FogOfWarClient.java:201-250 | the entry loop leaves the map entries of every chunk it does not name untouched, and never writes the fogged set or the default fog block |
| FogOfWar.EntriesKeepKeys | src/client/java/net/civarmymod/FogOfWarClient.java:201-250 | the entry loop removes no key from any of the three maps |
| FogOfWar.EntriesComplete | src/client/java/net/civarmymod/FogOfWarClient.java:201-250 | the entry loop runs to its end exactly when every entry is well formed |
| FogOfWar.EntriesLastWrite | src/client/java/net/civarmymod/FogOfWarClient.java:201-238 | in a well-formed list, a chunk's state and fog block are those of the last entry naming it |
| FogOfWar.EntriesSnapshotKept | src/client/java/net/civarmymod/FogOfWarClient.java:241-249 | a chunk none of whose entries installs a snapshot keeps its old snapshot, present or absent |
| FogOfWar.EntriesSnapshotInstalled | src/client/java/net/civarmymod/FogOfWarClient.java:241-249 | otherwise its snapshot is the one of the last entry that installs one |
| FogOfWar.MessageKeepsFoggedSet | src/client/java/net/civarmymod/FogOfWarClient.java:192-271 | an authority update never changes the fogged set or the default fog block, so `isFoggedChunk` answers as before; a message without `foggedChunks` changes nothing |
| FogOfWar.MessageListedChunk | src/client/java/net/civarmymod/FogOfWarClient.java:201-238 | after a well-formed message, a listed chunk has the state and fog block of the last entry naming it |
| FogOfWar.MessageSnapshotKept | src/client/java/net/civarmymod/FogOfWarClient.java:241-249 | a listed chunk with no decodable snapshot in its entries keeps its old snapshot |
| FogOfWar.MessageSnapshotInstalled | src/client/java/net/civarmymod/FogOfWarClient.java:241-249 | a listed chunk's snapshot is that of its last entry with a decodable snapshot, despite the reset |
| FogOfWar.MessageUnlistedChunk | src/client/java/net/civarmymod/FogOfWarClient.java:253-267 | a chunk the message does not name is dropped from all three maps when a reset runs and it had a state; otherwise its map entries are untouched |
| FogOfWar.ResetHidesUnlisted | src/client/java/net/civarmymod/FogOfWarClient.java:253-267 | after a completed reset every chunk the message does not name reads as hidden |
| FogOfWar.ArrayWrappedMembersAreRead | src/client/java/net/civarmymod/FogOfWarClient.java:201-267 | an entry whose `state` is `["VISIBLE"]`, in a message whose `resetState` is `[true]`, stores VISIBLE and the default fog block, and the sweep then leaves that chunk the only one with a state |
| FogOfWar.MessageWithoutSweepKeepsKeys | src/client/java/net/civarmymod/FogOfWarClient.java:253-267 | without `resetState`, or when an entry throws, no key is removed from any map |
| FogOfWar.SweepSparesStatelessSnapshot | src/client/java/net/civarmymod/FogOfWarClient.java:254-259 | a snapshot of a chunk with no state survives a reset that does not name the chunk |
| FogOfWar.VisibleEntryGetsFogBlock | src/client/java/net/civarmymod/FogOfWarClient.java:226-238 | a well-formed VISIBLE entry leaves its chunk VISIBLE and with a fog block |
| FogOfWar.FogOfWarClient.constructor | src/client/java/net/civarmymod/FogOfWarClient.java:48-67 | a new store has empty maps and set, and gray concrete as the default fog block |
| FogOfWar.FogOfWarClient.IsFoggedChunk | src/client/java/net/civarmymod/FogOfWarClient.java:108-110 | true exactly for the chunks in the fogged set |
| FogOfWar.FogOfWarClient.GetChunkSnapshot | src/client/java/net/civarmymod/FogOfWarClient.java:115-117 | the chunk's snapshot, null when it has none |
| FogOfWar.FogOfWarClient.IsHiddenChunk | src/client/java/net/civarmymod/FogOfWarClient.java:122-126 | a chunk without a state entry is hidden; one with an entry is hidden exactly when its state is HIDDEN |
| FogOfWar.FogOfWarClient.GetFogBlock | src/client/java/net/civarmymod/FogOfWarClient.java:131-134 | the chunk's own fog block when it has one, else the default fog block |
| FogOfWar.FogOfWarClient.AddFoggedChunk | src/client/java/net/civarmymod/FogOfWarClient.java:139-141 | the chunk joins the fogged set and nothing else changes |
| FogOfWar.FogOfWarClient.RemoveFoggedChunk | src/client/java/net/civarmymod/FogOfWarClient.java:146-149 | the chunk leaves the fogged set and loses its snapshot; its state and fog block stay |
| FogOfWar.FogOfWarClient.ClearFoggedChunks | src/client/java/net/civarmymod/FogOfWarClient.java:154-157 | the fogged set and the snapshots are emptied; states and fog blocks stay |
| FogOfWar.FogOfWarClient.SetChunkSnapshot | src/client/java/net/civarmymod/FogOfWarClient.java:162-164 | the chunk's snapshot is replaced and nothing else changes |
| FogOfWar.FogOfWarClient.SetDefaultFogBlock | src/client/java/net/civarmymod/FogOfWarClient.java:169-171 | only the default fog block changes |
| FogOfWar.FogOfWarClient.UpdateFromApiResponse | src/client/java/net/civarmymod/FogOfWarClient.java:192-276 | the new store is the message applied to the old one: the entries in order up to the first that throws, then the reset sweep when none threw and `resetState` is present and `getAsBoolean()` reads true on it (a throwing read skips the sweep) |
| FogOfWar.FogOfWarClient.ProcessEntry | src/client/java/net/civarmymod/FogOfWarClient.java:201-249 | one loop iteration does the writes of one entry, and reports whether an exception ended it |
| FogOfWar.FogOfWarClient.RemoveUnlisted | src/client/java/net/civarmymod/FogOfWarClient.java:253-267 | every `chunkStates` key outside the updated chunks is removed from the three maps, and nothing else changes |
| NpcRegistry.ValidUuidsMembers | src/client/java/net/civarmymod/NPCManager.java:224-243 | a UUID is added by the batch exactly when some primitive element of the array parses to it |
| NpcRegistry.NewUuidCountIsNewUuids | src/client/java/net/civarmymod/NPCManager.java:224-243 | the loop's count is the number of distinct valid UUIDs of the array that were not already present; duplicates, malformed strings and non-primitive elements add nothing |
| NpcRegistry.NpcManager.constructor | src/client/java/net/civarmymod/NPCManager.java:56-61 | a new registry has no UUIDs, no callback and no notifications |
| NpcRegistry.NpcManager.SetNpcUpdateCallback | src/client/java/net/civarmymod/NPCManager.java:165-167 | sets or clears the callback; the set and the notifications are unchanged |
| NpcRegistry.NpcManager.NotifyUpdateListeners | src/client/java/net/civarmymod/NPCManager.java:172-180 | a registered callback is handed a copy of the current set; without one nothing happens |
| NpcRegistry.NpcManager.AddNpcUuid | src/client/java/net/civarmymod/NPCManager.java:68-83 | null gives false and no change; otherwise the UUID is present afterwards, the result is whether it was absent, and listeners are notified exactly when it is true |
| NpcRegistry.NpcManager.AddNpcUuidFromString | src/client/java/net/civarmymod/NPCManager.java:90-99 | a string that does not parse gives false and no change; otherwise it behaves as adding the parsed UUID |
| NpcRegistry.NpcManager.RemoveNpcUuid | src/client/java/net/civarmymod/NPCManager.java:106-116 | null gives false and no change; otherwise the UUID is absent afterwards, the result is whether it was present, and listeners are notified exactly when it is true |
| NpcRegistry.NpcManager.ClearNpcUuids | src/client/java/net/civarmymod/NPCManager.java:121-128 | the set becomes empty; listeners are notified exactly when it was not empty before |
| NpcRegistry.NpcManager.IsNpcUuid | src/client/java/net/civarmymod/NPCManager.java:135-143 | true exactly for a non-null UUID in the set |
| NpcRegistry.NpcManager.GetAllNpcUuids | src/client/java/net/civarmymod/NPCManager.java:149-151 | the returned set holds exactly the UUIDs `isNpcUuid` accepts |
| NpcRegistry.NpcManager.GetNpcCount | src/client/java/net/civarmymod/NPCManager.java:157-159 | the size of that set |
| NpcRegistry.NpcManager.AddElement | src/client/java/net/civarmymod/NPCManager.java:225-239 | one element adds its UUID when it is a primitive that parses, and reports whether the UUID was new |
| NpcRegistry.NpcManager.AddParsed | src/client/java/net/civarmymod/NPCManager.java:224-243 | the loop adds every valid UUID of the array and counts the ones that were not present, notifying no one |
| NpcRegistry.NpcManager.ProcessNpcUuidsFromJson | src/client/java/net/civarmymod/NPCManager.java:187-260 | a null response or a missing or non-array `npcUuids` gives 0 and no change; with `resetNpcs` the set becomes exactly the valid UUIDs, otherwise it grows by them; the count is the new ones; listeners are notified exactly when the count is positive or a reset happened |
| NpcChunks.NpcFilterMembers | src/client/java/net/civarmymod/NPCChunkManager.java:321-331 | the NPC entities are exactly the player entities whose UUID is registered |
| NpcChunks.ChunkOfContains | src/client/java/net/civarmymod/NPCChunkManager.java:131-132 | an NPC's chunk `floor(x) >> 4` is the one whose sixteen columns contain it, negative coordinates included |
| NpcChunks.SquareIsChebyshevBall | src/client/java/net/civarmymod/NPCChunkManager.java:137-161 | the square the nested offset loops visit is the Chebyshev ball of the same radius |
| NpcChunks.NearIsScanned | src/client/java/net/civarmymod/NPCChunkManager.java:137-161 | a chunk next to an NPC chunk is always among the scanned ones |
| NpcChunks.ScanDoesNotOverflow | src/client/java/net/civarmymod/NPCChunkManager.java:140-153 | the offsets added to an NPC chunk coordinate never wrap a Java `int` |
| NpcChunks.GetNpcEntities | src/client/java/net/civarmymod/NPCChunkManager.java:298-340 | the NPC players of the world in world order; none without a world |
| NpcChunks.CollectNpcChunks | src/client/java/net/civarmymod/NPCChunkManager.java:129-134 | the NPC chunks are exactly the chunks of the NPC entities |
| NpcChunks.AddScanSquare | src/client/java/net/civarmymod/NPCChunkManager.java:138-143 | one NPC chunk's nested loops add exactly its 5x5 square |
| NpcChunks.ScanChunks | src/client/java/net/civarmymod/NPCChunkManager.java:137-144 | the scanned chunks are exactly those within Chebyshev distance 2 of some NPC chunk |
| NpcChunks.HasNearbyNpc | src/client/java/net/civarmymod/NPCChunkManager.java:148-161 | the loops with `break` find an NPC chunk exactly when one lies within Chebyshev distance 1 |
| NpcChunks.ClassifyChunks | src/client/java/net/civarmymod/NPCChunkManager.java:147-178 | a scanned chunk is to become VISIBLE exactly when an NPC chunk is within distance 1 and it is not visible; FOGGED exactly when none is, it is visible and not fogged |
| NpcChunks.EmitWrites | src/client/java/net/civarmymod/NPCChunkManager.java:214-228 | one write per chunk of the set, none twice; each chunk joins the changed set and `hasChanges` is raised exactly when the set is non-empty |
| NpcChunks.UpdateFogOfWarChunkStates | src/client/java/net/civarmymod/NPCChunkManager.java:195-280 | VISIBLE writes for the visible delta, then FOGGED writes for the fogged delta; the changed set is their union; `hasChanges` holds exactly when it is non-empty; reloads are requested for each changed chunk when a world is present under Sodium |
| NpcChunks.UpdateChunkStates | src/client/java/net/civarmymod/NPCChunkManager.java:96-190 | nothing happens without a client, store or NPC; otherwise the scan, the two disjoint delta sets, writes only to scanned chunks, and the changed set as stated above |
| FogApi.Trim | src/client/java/net/civarmymod/network/FogAPIClient.java:76 | `trim()` is the infix left after removing every leading and trailing char up to U+0020 |
| FogApi.TrimEmptyIffBlank | src/client/java/net/civarmymod/network/FogAPIClient.java:68 | `trim().isEmpty()` holds exactly for strings made only of such chars |
| FogApi.TrimOfTrimmed | src/client/java/net/civarmymod/network/FogAPIClient.java:76 | a string that starts and ends with a char above U+0020 is its own trim |
| FogApi.WithSchemeCases | src/client/java/net/civarmymod/network/FogAPIClient.java:75-82 | `http://` becomes `ws://`, `https://` becomes `wss://`, `ws://` and `wss://` URLs stay, anything else gets `ws://` in front |
| FogApi.PathTailAppended | src/client/java/net/civarmymod/network/FogAPIClient.java:85-91 | appending the path makes the string end in `/api/fog/ws` and not in `/`, without adding a line terminator |
| FogApi.NormalizeExtendsScheme | src/client/java/net/civarmymod/network/FogAPIClient.java:75-91 | the path step only appends to the result of the scheme step |
| FogApi.NormalizedScheme | src/client/java/net/civarmymod/network/FogAPIClient.java:75-82 | the stored endpoint starts with the rewritten scheme followed by the rest of the trimmed input |
| FogApi.NormalizedPath | src/client/java/net/civarmymod/network/FogAPIClient.java:85-91 | the path is appended unless the path check passes, and a trailing `/` is not doubled |
| FogApi.WithSchemeShape | src/client/java/net/civarmymod/network/FogAPIClient.java:75-82 | after the scheme step the string starts with `ws://` or `wss://` |
| FogApi.NormalizedShape | src/client/java/net/civarmymod/network/FogAPIClient.java:75-93 | the stored endpoint starts with `ws://` or `wss://` and ends in `/api/fog/ws` or `/api/fog/ws/` |
| FogApi.NormalizedHasApiPath | src/client/java/net/civarmymod/network/FogAPIClient.java:85 | without line terminators, the stored endpoint passes the path check |
| FogApi.NormalFormIsFixed | src/client/java/net/civarmymod/network/FogAPIClient.java:68-93 | an endpoint of that shape is not blank, is its own trim, keeps its scheme, and is its own normalisation when it passes the path check |
| FogApi.NormalizeIdempotent | src/client/java/net/civarmymod/network/FogAPIClient.java:64-93 | setting the stored endpoint again stores the same string, for a non-blank endpoint without line terminators after trimming |
| FogApi.NormalizeNotIdempotent | src/client/java/net/civarmymod/network/FogAPIClient.java:85-91 | with a line terminator in the trimmed endpoint, setting it again appends `/api/fog/ws` once more |
| FogApi.TrailingNewlineIsTrimmed | src/client/java/net/civarmymod/network/FogAPIClient.java:76 | an endpoint with a trailing newline has a line terminator, but its trim has none, so it falls under `NormalizeIdempotent` |
| FogApi.DefaultEndpointIsNormal | src/client/java/net/civarmymod/network/FogAPIClient.java:37 | the default `ws://localhost:8080/api/fog/ws` is its own normalisation |
| FogApi.ConnectUri | src/client/java/net/civarmymod/network/FogAPIClient.java:200 | the URI is the endpoint, then `&` if it already has a `?` and `?` otherwise, then `uuid=` and the UUID |
| FogApi.ConnectUriQuery | src/client/java/net/civarmymod/network/FogAPIClient.java:200 | the URI always has a query, and when the endpoint had none the first `?` is right after the endpoint |
| FogApi.FogApiClient.constructor | src/client/java/net/civarmymod/network/FogAPIClient.java:37 | a new client holds the default endpoint |
| FogApi.FogApiClient.SetApiEndpoint | src/client/java/net/civarmymod/network/FogAPIClient.java:64-93 | a null or blank endpoint keeps the old one; otherwise the trimmed endpoint with its scheme and its path is stored |
| FogApi.FogApiClient.ConnectionUri | src/client/java/net/civarmymod/network/FogAPIClient.java:200 | the connect URI starts with the stored endpoint and has a query |
| RenderRegion.LocalOf | src/client/java/net/civarmymod/mixin/ChunkRenderRegionMixin.java:73-76 | the offsets lie in [0, 16), and chunk, section and offsets recover the position |
| RenderRegion.LocalOfInjective | src/client/java/net/civarmymod/mixin/ChunkRenderRegionMixin.java:73-87 | two positions with the same chunk and the same relative coordinates are the same position |
| RenderRegion.BlockFor | src/client/java/net/civarmymod/mixin/ChunkRenderRegionMixin.java:89-96 | a matching entry shows the registered block in its default state, or bedrock when its id cannot be made an identifier |
| RenderRegion.FindInBlocksFirstMatch | src/client/java/net/civarmymod/mixin/ChunkRenderRegionMixin.java:84-98 | the inner search finds a block exactly when some entry matches, and then it is the block of the first one |
| RenderRegion.FindInSectionsFirstHit | src/client/java/net/civarmymod/mixin/ChunkRenderRegionMixin.java:79-103 | the section search finds nothing exactly when no entry of a section with the wanted `y` matches; otherwise it is the first such entry, sections in order and entries in order |
| RenderRegion.GetBlockStateFromSnapshot | src/client/java/net/civarmymod/mixin/ChunkRenderRegionMixin.java:65-108 | the nested loops with early return compute the snapshot search of the chunk's snapshot: null without a snapshot, without `sections` or without a match |
| RenderRegion.RenderOverride | src/client/java/net/civarmymod/mixin/ChunkRenderRegionMixin.java:31-60 | without a store the lookup is untouched; with one it is overridden exactly in fogged chunks |
| RenderRegion.FoggedChunkShowsRecordedBlock | src/client/java/net/civarmymod/mixin/ChunkRenderRegionMixin.java:44-49 | a fogged chunk shows, at a recorded position, the block of the first entry recording it |
| RenderRegion.FoggedChunkFallsBackToFogBlock | src/client/java/net/civarmymod/mixin/ChunkRenderRegionMixin.java:50-55 | a fogged chunk with no snapshot, no `sections` or no matching entry shows its fog block |
| RenderRegion.AuthorityUpdateKeepsOverrideDecision | src/client/java/net/civarmymod/mixin/ChunkRenderRegionMixin.java:44 | an authority update never changes which lookups this path overrides |
| RenderRegion.OnGetBlockState | src/client/java/net/civarmymod/mixin/ChunkRenderRegionMixin.java:31-60 | the injected method makes the override decision of the current store |
| SodiumMeshing.RedirectGetBlockState | src/client/java/net/civarmymod/mixin/compat/sodium/SodiumChunkBuilderMeshingTaskMixin.java:43-113 | a null or air block, or a missing store, gives the original block; every other result is the original, air, dirt or stone |
| SodiumMeshing.FogSubstitute | src/client/java/net/civarmymod/mixin/compat/sodium/SodiumChunkBuilderMeshingTaskMixin.java:67-76 | a snapshot block of stone shows as dirt, of water as stone, and anything else as air, each an if-and-only-if |
| SodiumMeshing.FoggedChunkShowsSubstitute | src/client/java/net/civarmymod/mixin/compat/sodium/SodiumChunkBuilderMeshingTaskMixin.java:63-76 | a non-air block of a fogged chunk with a snapshot block shows that block's substitute, whatever the live block is |
| SodiumMeshing.UnfoggedChunkShowsVisibleOnly | src/client/java/net/civarmymod/mixin/compat/sodium/SodiumChunkBuilderMeshingTaskMixin.java:88-92 | outside fogged chunks a non-air block stays exactly when its chunk is visible, and becomes air otherwise |
| SodiumMeshing.FoggedChunkWithoutSnapshotKeepsOriginal | src/client/java/net/civarmymod/mixin/compat/sodium/SodiumChunkBuilderMeshingTaskMixin.java:77-98 | as written, a fogged position without a snapshot block shows the live block |
| SodiumMeshing.RedirectIntended | src/client/java/net/civarmymod/mixin/compat/sodium/SodiumChunkBuilderMeshingTaskMixin.java:77-86 | the decision with the null case returning air; null or air blocks and a missing store still give the original |
| SodiumMeshing.IntendedHidesLiveBlocks | src/client/java/net/civarmymod/mixin/compat/sodium/SodiumChunkBuilderMeshingTaskMixin.java:62-86 | with that fallback, two non-air live blocks of a fogged chunk render the same block, in its default state |
| SodiumMeshing.IntendedAgreesElsewhere | src/client/java/net/civarmymod/mixin/compat/sodium/SodiumChunkBuilderMeshingTaskMixin.java:63-92 | the intended decision differs from the written one only at fogged positions without a snapshot block |
| SodiumMeshing.WrittenLeaksLiveBlocks | src/client/java/net/civarmymod/mixin/compat/sodium/SodiumChunkBuilderMeshingTaskMixin.java:77-98 | as written, stone and dirt render differently in fogged chunk (0, 0) when it has no snapshot block |
| ChunkReload.SectionCount | src/client/java/net/civarmymod/ChunkReloadManager.java:41-51 | the loop runs no times exactly when the top section lies below the bottom one, and otherwise once for each section from the bottom one to the top one |
| ChunkReload.EveryHeightIsCovered | src/client/java/net/civarmymod/ChunkReloadManager.java:35-46 | when `minY + height` does not overflow, every block height of the dimension lies in a scheduled section |
| ChunkReload.NonEmptyDimensionSchedules | src/client/java/net/civarmymod/ChunkReloadManager.java:41-46 | a dimension at least one block high without overflow gets at least one section rebuilt |
| ChunkReload.RequestChunkReload | src/client/java/net/civarmymod/ChunkReloadManager.java:20-53 | nothing is scheduled without a client, world or Sodium renderer; otherwise one important rebuild per section, from `minY >> 4` upwards, as many as there are sections |
| ChunkReload.RequestsAreDistinctAndInRange | src/client/java/net/civarmymod/ChunkReloadManager.java:46-51 | the scheduled sections strictly increase, lie in the range, and cover every section of it |

## Left out

- The WebSocket lifecycle of `FogAPIClient`: connect, disconnect, reconnect, the
  message callbacks and `isConnected`. These are network I/O and asynchronous
  callbacks of a library that is not part of this model. Only the connect URI is modelled.
- `FogAPIClient.decodeSnapshot`: Base64 and compressed NBT parsing by libraries
  outside this model. It is the parameter `decode`.
- Persistence: `saveData`/`loadData`, `saveNpcUuids`/`loadNpcUuids` and `FogConfig`
  are file-system I/O.
  - The constructors are modelled as if nothing had been saved.
  - The save calls inside the `NPCManager` operations are dropped.
- Concurrency: the scheduler of `NPCChunkManager`, its `shutdown`, the concurrent
  collections and `MinecraftClient.execute`.
  - Every operation is modelled as running alone.
  - The reloads that `updateFogOfWarChunkStates` hands to `execute` are modelled
    as the set of chunks to reload; the order in which they run is not.
- `worldRenderer.reload()` at the end of an authority update, the Sodium
  detection by `Class.forName` (the parameter `sodiumLoaded`), and all logging.
- Floating point: an entity's `getX()`/`getZ()` is taken as the already floored
  `int` block coordinate.
- `UpperAscii`: `String.toUpperCase` is modelled on ASCII letters only; other
  Unicode case mappings are not.
- Gson conversions:
  - `getAsInt` on a coordinate is taken as either a value or a throw (`None`); its
    truncation of fractional and large numbers is not modelled.
- FogOfWar.FogOfWarClient.SetDefaultFogBlock: a null block is not modelled. Java
  accepts `setDefaultFogBlock(null)`. After it, an authority-update entry that
  falls back to the default fog block (a missing `fogBlock` member, or an
  `Identifier.of` that throws) puts null into the `fogBlocks` `ConcurrentHashMap`,
  which throws and ends that message; entries whose fog block resolves put no
  null. `getFogBlock` then returns null for a chunk without its own fog block.
- NpcRegistry.NpcManager.AddNpcUuidFromString: a null string is not modelled.
  Java's `addNpcUuid(String)` catches only `IllegalArgumentException`, so the
  `NullPointerException` from `UUID.fromString(null)` reaches the caller instead
  of a false result (the `UUID` overload returns false for null).
- The store methods `isVisibleChunk`, `setChunkState` and `getOriginalBlockState`
  are not defined in `FogOfWarClient.java`. They are input functions and emitted
  writes, with no semantics of their own.
- `getNpcEntities` handles a null `NPCManager`, but `NPCManager.getInstance` never
  returns null. The registry's set is passed in directly.
- `SodiumMeshing.RedirectGetBlockState`: an exception from `slice.getBlockState`
  itself (the outer handler at lines 103-111) is not modelled. The original block
  is an input.
- `FogApi.NormalizeIdempotent`: idempotence is proved only for endpoints without
  line terminators after trimming, because the path regular expression's `.`
  does not match them. `FogApi.NormalizeNotIdempotent` proves that it fails for
  every other non-blank endpoint.
- `RenderRegion.OnGetBlockState`: exceptions from the NBT accessors are not
  modelled. The snapshot datatype records what the accessors return for a
  missing member or one of the wrong type (0, "" or an empty list).
- `ChunkReload.EveryHeightIsCovered`: covers only dimensions whose `minY + height`
  fits in an `int`. The wrap-around itself is modelled by `RequestChunkReload`.
- The mixins that only log, do nothing, return a constant or are commented out.
  The client chunk manager's "hidden means no chunk" decision is `IsHiddenChunk`.

## Findings

| source | as written | input that shows it | evidently intended | confidence | as-written member | corrected member |
|---|---|---|---|---|---|---|
| src/client/java/net/civarmymod/mixin/compat/sodium/SodiumChunkBuilderMeshingTaskMixin.java:77-98 | When `getOriginalBlockState` returns null for a fogged chunk, the log line at line 81 dereferences `snapshotState` and throws. The inner handler catches the exception and returns the live block, so the fogged chunk shows what is really there. | A fogged chunk (0, 0) with no snapshot block at (0, 0, 0): live stone renders as stone and live dirt as dirt | The comments at lines 78-80 and the `return` at line 83 say the position shows as air | not executed | SodiumMeshing.WrittenLeaksLiveBlocks | SodiumMeshing.IntendedHidesLiveBlocks |
