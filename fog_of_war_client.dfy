/** The visibility store (`FogOfWarClient`): per-chunk state, per-chunk fog
    block and per-chunk snapshot maps, the legacy fogged-chunk set, and the
    authority update that applies a pushed JSON message to them. */
module FogOfWar {
  import opened Common
  import opened Json

  datatype ChunkState = VISIBLE | FOGGED | HIDDEN

  /** `ChunkState.valueOf(name)`: the constant whose name is exactly `name`;
      `None` is the `IllegalArgumentException` thrown for any other text. */
  function ValueOf(name: string): (r: Option<ChunkState>)
    ensures r == Some(VISIBLE) <==> name == "VISIBLE"
    ensures r == Some(FOGGED) <==> name == "FOGGED"
    ensures r == Some(HIDDEN) <==> name == "HIDDEN"
  {
    if name == "VISIBLE" then Some(VISIBLE)
    else if name == "FOGGED" then Some(FOGGED)
    else if name == "HIDDEN" then Some(HIDDEN)
    else None
  }

  // ---------------------------------------------------------------------
  // Snapshots, as the NBT compound the render path reads

  /** One `blocks` element of a section; each member is `None` when it is
      absent or of another tag type. */
  datatype BlockEntry = BlockEntry(x: Option<int>, y: Option<int>, z: Option<int>, id: Option<string>)

  /** One `sections` element; `blocks` is empty when the list is absent or
      is not a list of compounds (that is what `getList(_, 10)` returns). */
  datatype Section = Section(y: Option<int>, blocks: seq<BlockEntry>)

  /** A chunk snapshot; `sections` is `None` when the compound has no
      `sections` member or it is not a list of compounds. */
  datatype Snapshot = Snapshot(sections: Option<seq<Section>>)

  // ---------------------------------------------------------------------
  // Authority messages

  /** One element of the `foggedChunks` array. `NotAnObject` is an element
      on which `getAsJsonObject()` throws; `x`/`z` are `None` when the member
      is missing or `getAsInt()` throws on it. */
  datatype Entry =
    | NotAnObject
    | ChunkData(x: Option<int>, z: Option<int>, state: Field, fogBlock: Field, snapshot: Field)

  /** An authority message. `foggedChunks` is `None` when the member is
      absent or is not an array (the cast throws before anything is written);
      `resetState` is the member as it is. */
  datatype Message = Message(foggedChunks: Option<seq<Entry>>, resetState: Field)

  /** The sweep runs when `resetState` is present and `getAsBoolean()`
      reads true on it; when that read throws, the exception is caught
      after the entry loop and the sweep is skipped. */
  predicate ResetRequested(f: Field) {
    f.Present? && GetAsBoolean(f.v) == Some(true)
  }

  /** The whole state of the store. */
  datatype Store = Store(
    foggedChunks: set<ChunkPos>,
    chunkSnapshots: map<ChunkPos, Snapshot>,
    chunkStates: map<ChunkPos, ChunkState>,
    fogBlocks: map<ChunkPos, BlockState>,
    defaultFogBlock: BlockState)
  {
    predicate IsFogged(p: ChunkPos) {
      p in foggedChunks
    }

    function SnapshotAt(p: ChunkPos): Option<Snapshot> {
      Lookup(chunkSnapshots, p)
    }

    /** `chunkStates.getOrDefault(pos, HIDDEN) == HIDDEN`. */
    predicate IsHidden(p: ChunkPos) {
      Lookup(chunkStates, p).GetOr(HIDDEN) == HIDDEN
    }

    /** `fogBlocks.getOrDefault(pos, defaultFogBlock)`. */
    function FogBlockAt(p: ChunkPos): BlockState {
      Lookup(fogBlocks, p).GetOr(defaultFogBlock)
    }
  }

  function Lookup<K, V>(m: map<K, V>, k: K): Option<V> {
    if k in m then Some(m[k]) else None
  }

  /** The three chunk-keyed maps agree at `q`. */
  predicate SameAt(s: Store, t: Store, q: ChunkPos) {
    && Lookup(s.chunkStates, q) == Lookup(t.chunkStates, q)
    && Lookup(s.fogBlocks, q) == Lookup(t.fogBlocks, q)
    && Lookup(s.chunkSnapshots, q) == Lookup(t.chunkSnapshots, q)
  }

  // ---------------------------------------------------------------------
  // Reading one entry

  predicate HasPos(e: Entry) {
    e.ChunkData? && e.x.Some? && e.z.Some?
  }

  function PosOf(e: Entry): ChunkPos
    requires HasPos(e)
  {
    ChunkPos(e.x.value, e.z.value)
  }

  /** The state an entry assigns; `None` when `getAsString()` throws on
      its `state` member. */
  function EntryState(f: Field): (r: Option<ChunkState>)
    ensures r == None <==> ReadThrows(f)
    ensures r == Some(VISIBLE) <==> f.Present? && !ReadThrows(f) && UpperAscii(TextOf(f)) == "VISIBLE"
    ensures r == Some(HIDDEN) <==> f.Present? && !ReadThrows(f) && UpperAscii(TextOf(f)) == "HIDDEN"
    ensures r == Some(FOGGED) <==>
      f.Missing? || (f.Present? && !ReadThrows(f) && UpperAscii(TextOf(f)) != "VISIBLE" && UpperAscii(TextOf(f)) != "HIDDEN")
  {
    match f
    case Missing => Some(FOGGED)
    case Present(v) =>
      (match GetAsString(v)
       case Some(t) => Some(ValueOf(UpperAscii(t)).GetOr(FOGGED))
       case None => None)
  }

  /** The fog block an entry assigns: the resolved `fogBlock` id, or the
      default when the member is missing or resolution throws; `None` when
      `getAsString()` throws on the member. */
  function EntryFogBlock(f: Field, resolve: string -> Option<BlockState>, default: BlockState): (r: Option<BlockState>)
    ensures r == None <==> ReadThrows(f)
    ensures r.Some? && r.value != default ==> f.Present? && !ReadThrows(f) && resolve(TextOf(f)) == Some(r.value)
    ensures f.Missing? ==> r == Some(default)
    ensures f.Present? && !ReadThrows(f) ==>
      r == Some(if resolve(TextOf(f)).Some? then resolve(TextOf(f)).value else default)
  {
    match f
    case Missing => Some(default)
    case Present(v) =>
      (match GetAsString(v)
       case Some(t) => Some(resolve(t).GetOr(default))
       case None => None)
  }

  datatype SnapshotAction = Throws | KeepSnapshot | Install(snapshot: Snapshot)

  /** What an entry does to the chunk's snapshot: install the decoded
      `snapshot` member, keep the old one when the member is missing or
      does not decode, or throw when `getAsString()` throws on it. */
  function EntrySnapshot(f: Field, decode: string -> Option<Snapshot>): (r: SnapshotAction)
    ensures r.Throws? <==> ReadThrows(f)
    ensures r.Install? <==> f.Present? && !ReadThrows(f) && decode(TextOf(f)).Some?
    ensures r.Install? ==> decode(TextOf(f)) == Some(r.snapshot)
  {
    match f
    case Missing => KeepSnapshot
    case Present(v) =>
      (match GetAsString(v)
       case None => Throws
       case Some(t) =>
         (match decode(t)
          case Some(snap) => Install(snap)
          case None => KeepSnapshot))
  }

  /** An entry that the loop processes without throwing. */
  predicate WellFormed(e: Entry) {
    HasPos(e) && !ReadThrows(e.state) && !ReadThrows(e.fogBlock) && !ReadThrows(e.snapshot)
  }

  predicate AllWellFormed(es: seq<Entry>) {
    forall i :: 0 <= i < |es| ==> WellFormed(es[i])
  }

  /** Entry `i` names `p` and installs a snapshot for it. */
  predicate InstallsAt(es: seq<Entry>, i: int, p: ChunkPos, decode: string -> Option<Snapshot>)
    requires 0 <= i < |es|
  {
    HasPos(es[i]) && PosOf(es[i]) == p && EntrySnapshot(es[i].snapshot, decode).Install?
  }

  /** No entry after `i` names the same chunk as entry `i`. */
  predicate IsLastFor(es: seq<Entry>, i: int)
    requires 0 <= i < |es| && HasPos(es[i])
  {
    forall j :: i < j < |es| && HasPos(es[j]) ==> PosOf(es[j]) != PosOf(es[i])
  }

  // ---------------------------------------------------------------------
  // The update, as a function of the old store

  /** The writes of an entry that the loop processes without throwing:
      its state, its fog block and, when it decodes, its snapshot. */
  function WriteEntry(s: Store, e: Entry, resolve: string -> Option<BlockState>,
                      decode: string -> Option<Snapshot>): Store
    requires WellFormed(e)
  {
    var p := PosOf(e);
    var snaps := match EntrySnapshot(e.snapshot, decode)
      case Install(snap) => s.chunkSnapshots[p := snap]
      case _ => s.chunkSnapshots;
    s.(chunkStates := s.chunkStates[p := EntryState(e.state).value],
       fogBlocks := s.fogBlocks[p := EntryFogBlock(e.fogBlock, resolve, s.defaultFogBlock).value],
       chunkSnapshots := snaps)
  }

  /** The writes an entry makes before the member that throws: none when
      its position cannot be read or its `state` throws, the state alone
      when `fogBlock` throws, state and fog block when `snapshot` throws. */
  function PartialEntry(s: Store, e: Entry, resolve: string -> Option<BlockState>): Store
    requires !WellFormed(e)
  {
    if !HasPos(e) || ReadThrows(e.state) then s
    else
      var s1 := s.(chunkStates := s.chunkStates[PosOf(e) := EntryState(e.state).value]);
      if ReadThrows(e.fogBlock) then s1
      else s1.(fogBlocks := s1.fogBlocks[PosOf(e) := EntryFogBlock(e.fogBlock, resolve, s.defaultFogBlock).value])
  }

  /** One iteration of the loop over `foggedChunks`: the store after it,
      and whether processing goes on (false: an exception escaped, which
      ends the whole update). */
  function ApplyEntry(s: Store, e: Entry, resolve: string -> Option<BlockState>,
                      decode: string -> Option<Snapshot>): (Store, bool)
  {
    if WellFormed(e) then (WriteEntry(s, e, resolve, decode), true)
    else (PartialEntry(s, e, resolve), false)
  }

  /** One entry touches only the chunk it names. */
  lemma ApplyEntryFrame(s: Store, e: Entry, q: ChunkPos, resolve: string -> Option<BlockState>,
                        decode: string -> Option<Snapshot>)
    requires !HasPos(e) || PosOf(e) != q
    ensures var t := ApplyEntry(s, e, resolve, decode).0;
      SameAt(s, t, q) && t.foggedChunks == s.foggedChunks && t.defaultFogBlock == s.defaultFogBlock
  {
  }

  /** The loop over the entries `es`, in order, stopping at the first one
      that throws. */
  function ApplyEntries(s: Store, es: seq<Entry>, resolve: string -> Option<BlockState>,
                        decode: string -> Option<Snapshot>): (Store, bool)
    decreases |es|
  {
    if es == [] then (s, true)
    else
      var before := ApplyEntries(s, es[..|es| - 1], resolve, decode);
      if before.1 then ApplyEntry(before.0, es[|es| - 1], resolve, decode) else before
  }

  /** `updatedChunks`: the chunks named by the entries. */
  function Listed(es: seq<Entry>): set<ChunkPos>
    decreases |es|
  {
    if es == [] then {}
    else Listed(es[..|es| - 1]) + (if HasPos(es[|es| - 1]) then {PosOf(es[|es| - 1])} else {})
  }

  /** The reset sweep: every `chunkStates` key outside `keep` is removed
      from the three maps. */
  function Sweep(s: Store, keep: set<ChunkPos>): Store {
    var gone := s.chunkStates.Keys - keep;
    s.(chunkStates := s.chunkStates - gone, fogBlocks := s.fogBlocks - gone,
       chunkSnapshots := s.chunkSnapshots - gone)
  }

  /** `updateFromApiResponse` as a function of the old store. */
  function ApplyMessage(s: Store, m: Message, resolve: string -> Option<BlockState>,
                        decode: string -> Option<Snapshot>): Store
  {
    match m.foggedChunks
    case None => s
    case Some(es) =>
      var (t, completed) := ApplyEntries(s, es, resolve, decode);
      if completed && ResetRequested(m.resetState) then Sweep(t, Listed(es)) else t
  }

  // ---------------------------------------------------------------------
  // Lemmas about the entry loop

  lemma {:induction false} ListedMembers(es: seq<Entry>, p: ChunkPos)
    ensures p in Listed(es) <==> exists i :: 0 <= i < |es| && HasPos(es[i]) && PosOf(es[i]) == p
    decreases |es|
  {
    if es != [] {
      var init := es[..|es| - 1];
      ListedMembers(init, p);
      if p in Listed(init) {
        var i :| 0 <= i < |init| && HasPos(init[i]) && PosOf(init[i]) == p;
        assert es[i] == init[i];
      }
      if exists i :: 0 <= i < |es| && HasPos(es[i]) && PosOf(es[i]) == p {
        var i :| 0 <= i < |es| && HasPos(es[i]) && PosOf(es[i]) == p;
        if i < |es| - 1 {
          assert init[i] == es[i];
        }
      }
    }
  }

  /** Ending early: once an entry has thrown, the rest change nothing. */
  lemma {:induction false} AbortIsFinal(s: Store, es: seq<Entry>, k: nat,
                                        resolve: string -> Option<BlockState>, decode: string -> Option<Snapshot>)
    requires k <= |es|
    requires !ApplyEntries(s, es[..k], resolve, decode).1
    ensures ApplyEntries(s, es, resolve, decode) == ApplyEntries(s, es[..k], resolve, decode)
    decreases |es|
  {
    if k < |es| {
      var init := es[..|es| - 1];
      assert init[..k] == es[..k];
      AbortIsFinal(s, init, k, resolve, decode);
    } else {
      assert es[..k] == es;
    }
  }

  /** The loop touches only the chunks it names, never the fogged-chunk set
      nor the default fog block. */
  lemma {:induction false} EntriesFrame(s: Store, es: seq<Entry>, q: ChunkPos,
                                        resolve: string -> Option<BlockState>, decode: string -> Option<Snapshot>)
    requires q !in Listed(es)
    ensures var t := ApplyEntries(s, es, resolve, decode).0;
      SameAt(s, t, q) && t.foggedChunks == s.foggedChunks && t.defaultFogBlock == s.defaultFogBlock
    decreases |es|
  {
    if es != [] {
      var init := es[..|es| - 1];
      EntriesFrame(s, init, q, resolve, decode);
      var before := ApplyEntries(s, init, resolve, decode);
      if before.1 {
        ApplyEntryFrame(before.0, es[|es| - 1], q, resolve, decode);
      }
    }
  }

  /** The loop never drops a key from any of the three maps. */
  lemma {:induction false} EntriesKeepKeys(s: Store, es: seq<Entry>,
                                           resolve: string -> Option<BlockState>, decode: string -> Option<Snapshot>)
    ensures var t := ApplyEntries(s, es, resolve, decode).0;
      && s.chunkStates.Keys <= t.chunkStates.Keys
      && s.fogBlocks.Keys <= t.fogBlocks.Keys
      && s.chunkSnapshots.Keys <= t.chunkSnapshots.Keys
      && t.foggedChunks == s.foggedChunks && t.defaultFogBlock == s.defaultFogBlock
    decreases |es|
  {
    if es != [] {
      EntriesKeepKeys(s, es[..|es| - 1], resolve, decode);
    }
  }

  /** The loop runs to the end exactly when every entry is well formed. */
  lemma {:induction false} EntriesComplete(s: Store, es: seq<Entry>,
                                           resolve: string -> Option<BlockState>, decode: string -> Option<Snapshot>)
    ensures ApplyEntries(s, es, resolve, decode).1 <==> AllWellFormed(es)
    decreases |es|
  {
    if es != [] {
      var init := es[..|es| - 1];
      EntriesComplete(s, init, resolve, decode);
      assert AllWellFormed(es) <==> AllWellFormed(init) && WellFormed(es[|es| - 1]) by {
        if AllWellFormed(init) && WellFormed(es[|es| - 1]) {
          forall i | 0 <= i < |es| ensures WellFormed(es[i]) {
            if i < |es| - 1 { assert es[i] == init[i]; }
          }
        }
        if AllWellFormed(es) {
          forall i | 0 <= i < |init| ensures WellFormed(init[i]) {
            assert init[i] == es[i];
          }
        }
      }
    }
  }

  /** The state and fog block of a listed chunk are those of the last entry
      naming it. */
  lemma {:induction false} EntriesLastWrite(s: Store, es: seq<Entry>, i: int,
                                            resolve: string -> Option<BlockState>, decode: string -> Option<Snapshot>)
    requires AllWellFormed(es)
    requires 0 <= i < |es| && IsLastFor(es, i)
    ensures var t := ApplyEntries(s, es, resolve, decode).0;
      && Lookup(t.chunkStates, PosOf(es[i])) == EntryState(es[i].state)
      && Lookup(t.fogBlocks, PosOf(es[i])) == EntryFogBlock(es[i].fogBlock, resolve, s.defaultFogBlock)
    decreases |es|
  {
    var init := es[..|es| - 1];
    assert AllWellFormed(init) by {
      forall j | 0 <= j < |init| ensures WellFormed(init[j]) { assert init[j] == es[j]; }
    }
    EntriesComplete(s, init, resolve, decode);
    EntriesKeepKeys(s, init, resolve, decode);
    if i < |es| - 1 {
      assert init[i] == es[i];
      assert IsLastFor(init, i) by {
        forall j | i < j < |init| && HasPos(init[j]) ensures PosOf(init[j]) != PosOf(init[i]) {
          assert init[j] == es[j];
        }
      }
      EntriesLastWrite(s, init, i, resolve, decode);
    }
  }

  /** A listed chunk whose entries install no snapshot keeps its old one. */
  lemma {:induction false} EntriesSnapshotKept(s: Store, es: seq<Entry>, p: ChunkPos,
                                               resolve: string -> Option<BlockState>, decode: string -> Option<Snapshot>)
    requires forall i :: 0 <= i < |es| ==> !InstallsAt(es, i, p, decode)
    ensures Lookup(ApplyEntries(s, es, resolve, decode).0.chunkSnapshots, p) == Lookup(s.chunkSnapshots, p)
    decreases |es|
  {
    if es != [] {
      var init := es[..|es| - 1];
      forall i | 0 <= i < |init| ensures !InstallsAt(init, i, p, decode) {
        assert init[i] == es[i];
        assert !InstallsAt(es, i, p, decode);
      }
      EntriesSnapshotKept(s, init, p, resolve, decode);
      assert !InstallsAt(es, |es| - 1, p, decode);
    }
  }

  /** Otherwise the snapshot is the one of the last entry that decodes. */
  lemma {:induction false} EntriesSnapshotInstalled(s: Store, es: seq<Entry>, i: int, p: ChunkPos,
                                                    resolve: string -> Option<BlockState>,
                                                    decode: string -> Option<Snapshot>)
    requires AllWellFormed(es)
    requires 0 <= i < |es| && InstallsAt(es, i, p, decode)
    requires forall j :: i < j < |es| ==> !InstallsAt(es, j, p, decode)
    ensures Lookup(ApplyEntries(s, es, resolve, decode).0.chunkSnapshots, p)
            == Some(EntrySnapshot(es[i].snapshot, decode).snapshot)
    decreases |es|
  {
    var init := es[..|es| - 1];
    assert AllWellFormed(init) by {
      forall j | 0 <= j < |init| ensures WellFormed(init[j]) { assert init[j] == es[j]; }
    }
    EntriesComplete(s, init, resolve, decode);
    if i < |es| - 1 {
      assert init[i] == es[i];
      assert InstallsAt(init, i, p, decode);
      forall j | i < j < |init| ensures !InstallsAt(init, j, p, decode) {
        assert init[j] == es[j];
        assert !InstallsAt(es, j, p, decode);
      }
      EntriesSnapshotInstalled(s, init, i, p, resolve, decode);
      assert !InstallsAt(es, |es| - 1, p, decode);
    }
  }

  // ---------------------------------------------------------------------
  // Properties of a whole authority update

  /** An update never writes the fogged-chunk set nor the default fog
      block, and a message without a `foggedChunks` array changes nothing. */
  lemma MessageKeepsFoggedSet(s: Store, m: Message, resolve: string -> Option<BlockState>,
                              decode: string -> Option<Snapshot>)
    ensures var t := ApplyMessage(s, m, resolve, decode);
      && t.foggedChunks == s.foggedChunks
      && t.defaultFogBlock == s.defaultFogBlock
      && (forall p :: t.IsFogged(p) <==> s.IsFogged(p))
      && (m.foggedChunks.None? ==> t == s)
  {
    if m.foggedChunks.Some? {
      EntriesKeepKeys(s, m.foggedChunks.value, resolve, decode);
    }
  }

  /** A chunk listed in a well-formed message takes the state and the fog
      block of the last entry naming it. */
  lemma MessageListedChunk(s: Store, m: Message, i: int, resolve: string -> Option<BlockState>,
                           decode: string -> Option<Snapshot>)
    requires m.foggedChunks.Some? && AllWellFormed(m.foggedChunks.value)
    requires 0 <= i < |m.foggedChunks.value| && IsLastFor(m.foggedChunks.value, i)
    ensures var e := m.foggedChunks.value[i];
      var t := ApplyMessage(s, m, resolve, decode);
      && Lookup(t.chunkStates, PosOf(e)) == EntryState(e.state)
      && Lookup(t.fogBlocks, PosOf(e)) == EntryFogBlock(e.fogBlock, resolve, s.defaultFogBlock)
  {
    var es := m.foggedChunks.value;
    EntriesLastWrite(s, es, i, resolve, decode);
    ListedMembers(es, PosOf(es[i]));
  }

  /** A listed chunk keeps its previous snapshot (present or not) unless
      one of its entries carries a snapshot that decodes. */
  lemma MessageSnapshotKept(s: Store, m: Message, p: ChunkPos, resolve: string -> Option<BlockState>,
                            decode: string -> Option<Snapshot>)
    requires m.foggedChunks.Some? && p in Listed(m.foggedChunks.value)
    requires forall i :: 0 <= i < |m.foggedChunks.value| ==> !InstallsAt(m.foggedChunks.value, i, p, decode)
    ensures Lookup(ApplyMessage(s, m, resolve, decode).chunkSnapshots, p) == Lookup(s.chunkSnapshots, p)
  {
    EntriesSnapshotKept(s, m.foggedChunks.value, p, resolve, decode);
  }

  /** The snapshot of the last entry that carries a decodable one replaces
      the chunk's snapshot. */
  lemma MessageSnapshotInstalled(s: Store, m: Message, i: int, p: ChunkPos,
                                 resolve: string -> Option<BlockState>, decode: string -> Option<Snapshot>)
    requires m.foggedChunks.Some? && AllWellFormed(m.foggedChunks.value)
    requires 0 <= i < |m.foggedChunks.value| && InstallsAt(m.foggedChunks.value, i, p, decode)
    requires forall j :: i < j < |m.foggedChunks.value| ==> !InstallsAt(m.foggedChunks.value, j, p, decode)
    ensures var snap := EntrySnapshot(m.foggedChunks.value[i].snapshot, decode).snapshot;
      Lookup(ApplyMessage(s, m, resolve, decode).chunkSnapshots, p) == Some(snap)
  {
    var es := m.foggedChunks.value;
    EntriesSnapshotInstalled(s, es, i, p, resolve, decode);
    ListedMembers(es, p);
  }

  /** A chunk the message does not name: with `resetState` on a message
      processed to the end, it is dropped from all three maps if it had a
      state; otherwise its three map entries are untouched. */
  lemma MessageUnlistedChunk(s: Store, m: Message, q: ChunkPos, resolve: string -> Option<BlockState>,
                             decode: string -> Option<Snapshot>)
    requires m.foggedChunks.Some? && q !in Listed(m.foggedChunks.value)
    ensures var t := ApplyMessage(s, m, resolve, decode);
      if ResetRequested(m.resetState) && AllWellFormed(m.foggedChunks.value) && q in s.chunkStates
      then q !in t.chunkStates && q !in t.fogBlocks && q !in t.chunkSnapshots
      else SameAt(s, t, q)
  {
    var es := m.foggedChunks.value;
    EntriesFrame(s, es, q, resolve, decode);
    EntriesComplete(s, es, resolve, decode);
  }

  /** After a completed reset every chunk the message does not name reads
      as hidden, since its state is gone and absence means HIDDEN. */
  lemma ResetHidesUnlisted(s: Store, m: Message, q: ChunkPos, resolve: string -> Option<BlockState>,
                           decode: string -> Option<Snapshot>)
    requires m.foggedChunks.Some? && ResetRequested(m.resetState) && AllWellFormed(m.foggedChunks.value)
    requires q !in Listed(m.foggedChunks.value)
    ensures ApplyMessage(s, m, resolve, decode).IsHidden(q)
  {
    MessageUnlistedChunk(s, m, q, resolve, decode);
  }

  /** Without `resetState`, or when an entry throws (which skips the
      sweep), an update removes no key from any of the three maps. */
  lemma MessageWithoutSweepKeepsKeys(s: Store, m: Message, resolve: string -> Option<BlockState>,
                                     decode: string -> Option<Snapshot>)
    requires !ResetRequested(m.resetState) || (m.foggedChunks.Some? && !AllWellFormed(m.foggedChunks.value))
    ensures var t := ApplyMessage(s, m, resolve, decode);
      && s.chunkStates.Keys <= t.chunkStates.Keys
      && s.fogBlocks.Keys <= t.fogBlocks.Keys
      && s.chunkSnapshots.Keys <= t.chunkSnapshots.Keys
  {
    if m.foggedChunks.Some? {
      EntriesKeepKeys(s, m.foggedChunks.value, resolve, decode);
      EntriesComplete(s, m.foggedChunks.value, resolve, decode);
    }
  }

  /** The reset sweep walks only the `chunkStates` keys: a snapshot stored
      for a chunk that has no state survives a reset that does not name it. */
  lemma SweepSparesStatelessSnapshot(s: Store, m: Message, q: ChunkPos,
                                     resolve: string -> Option<BlockState>, decode: string -> Option<Snapshot>)
    requires m.foggedChunks.Some? && q !in Listed(m.foggedChunks.value)
    requires q !in s.chunkStates && q in s.chunkSnapshots
    ensures Lookup(ApplyMessage(s, m, resolve, decode).chunkSnapshots, q) == Some(s.chunkSnapshots[q])
  {
    MessageUnlistedChunk(s, m, q, resolve, decode);
  }

  /** Every listed chunk gets a fog block, VISIBLE ones included: a
      VISIBLE chunk also holds a fog block entry. */
  lemma VisibleEntryGetsFogBlock(s: Store, e: Entry, resolve: string -> Option<BlockState>,
                                 decode: string -> Option<Snapshot>)
    requires WellFormed(e) && EntryState(e.state) == Some(VISIBLE)
    ensures var t := ApplyMessage(s, Message(Some([e]), Missing), resolve, decode);
      Lookup(t.chunkStates, PosOf(e)) == Some(VISIBLE) && PosOf(e) in t.fogBlocks
  {
    assert [e][..0] == [];
    assert ApplyEntries(s, [e], resolve, decode) == ApplyEntry(s, e, resolve, decode);
  }

  /** `resetState: [true]` requests the sweep. */
  lemma ArrayWrappedTrueResets()
    ensures ResetRequested(Present(JArray([JPrim(JBool(true))])))
  {
  }

  /** `state: ["VISIBLE"]` reads as VISIBLE. */
  lemma ArrayWrappedVisibleState()
    ensures EntryState(Present(JArray([JPrim(JString("VISIBLE"))]))) == Some(VISIBLE)
  {
    var up := UpperAscii("VISIBLE");
    assert up == "VISIBLE" by {
      assert |up| == 7;
      assert forall i :: 0 <= i < 7 ==> up[i] == "VISIBLE"[i];
    }
  }

  /** A `state` and a `resetState` member given as one-element arrays are
      read through their elements: the entry stores VISIBLE and the default
      fog block, and the reset sweep runs, leaving that chunk the only
      one with a state. */
  lemma ArrayWrappedMembersAreRead(s: Store, x: int, z: int, resolve: string -> Option<BlockState>,
                                   decode: string -> Option<Snapshot>)
    ensures var e := ChunkData(Some(x), Some(z), Present(JArray([JPrim(JString("VISIBLE"))])), Missing, Missing);
      var t := ApplyMessage(s, Message(Some([e]), Present(JArray([JPrim(JBool(true))]))), resolve, decode);
      && t.chunkStates == map[ChunkPos(x, z) := VISIBLE]
      && Lookup(t.fogBlocks, ChunkPos(x, z)) == Some(s.defaultFogBlock)
  {
    var p := ChunkPos(x, z);
    var e := ChunkData(Some(x), Some(z), Present(JArray([JPrim(JString("VISIBLE"))])), Missing, Missing);
    var m := Message(Some([e]), Present(JArray([JPrim(JBool(true))])));
    ArrayWrappedVisibleState();
    ArrayWrappedTrueResets();
    var w := WriteEntry(s, e, resolve, decode);
    assert w.chunkStates == s.chunkStates[p := VISIBLE];
    assert w.fogBlocks == s.fogBlocks[p := s.defaultFogBlock];
    assert [e][..0] == [];
    assert ApplyEntries(s, [e], resolve, decode) == (w, true);
    assert Listed([e]) == {p};
    var t := Sweep(w, {p});
    assert ApplyMessage(s, m, resolve, decode) == t;
    assert t.chunkStates == map[p := VISIBLE];
  }

  // ---------------------------------------------------------------------
  // The store object

  /** Removing keys one at a time is removing them all at once. */
  lemma RemoveOneMore<K, V>(m: map<K, V>, gone: set<K>, k: K)
    ensures (m - gone) - {k} == m - (gone + {k})
  {
  }

  class FogOfWarClient {
    var foggedChunks: set<ChunkPos>
    var chunkSnapshots: map<ChunkPos, Snapshot>
    var chunkStates: map<ChunkPos, ChunkState>
    var fogBlocks: map<ChunkPos, BlockState>
    var defaultFogBlock: BlockState

    function View(): Store
      reads this
    {
      Store(foggedChunks, chunkSnapshots, chunkStates, fogBlocks, defaultFogBlock)
    }

    /** Empty maps and gray concrete as the default fog block. */
    constructor ()
      ensures View() == Store({}, map[], map[], map[], DefaultState(GRAY_CONCRETE))
    {
      foggedChunks := {};
      chunkSnapshots := map[];
      chunkStates := map[];
      fogBlocks := map[];
      defaultFogBlock := DefaultState(GRAY_CONCRETE);
    }

    function IsFoggedChunk(x: int, z: int): (r: bool)
      reads this
      ensures r <==> ChunkPos(x, z) in foggedChunks
    {
      View().IsFogged(ChunkPos(x, z))
    }

    function GetChunkSnapshot(x: int, z: int): (r: Option<Snapshot>)
      reads this
      ensures r.Some? <==> ChunkPos(x, z) in chunkSnapshots
      ensures r.Some? ==> r.value == chunkSnapshots[ChunkPos(x, z)]
    {
      View().SnapshotAt(ChunkPos(x, z))
    }

    /** A chunk without a state entry is hidden. */
    function IsHiddenChunk(x: int, z: int): (r: bool)
      reads this
      ensures ChunkPos(x, z) !in chunkStates ==> r
      ensures ChunkPos(x, z) in chunkStates ==> (r <==> chunkStates[ChunkPos(x, z)] == HIDDEN)
    {
      View().IsHidden(ChunkPos(x, z))
    }

    /** The chunk's own fog block when it has one, else the default. */
    function GetFogBlock(x: int, z: int): (r: BlockState)
      reads this
      ensures ChunkPos(x, z) in fogBlocks ==> r == fogBlocks[ChunkPos(x, z)]
      ensures ChunkPos(x, z) !in fogBlocks ==> r == defaultFogBlock
    {
      View().FogBlockAt(ChunkPos(x, z))
    }

    method AddFoggedChunk(x: int, z: int)
      modifies this
      ensures View() == old(View()).(foggedChunks := old(foggedChunks) + {ChunkPos(x, z)})
    {
      foggedChunks := foggedChunks + {ChunkPos(x, z)};
    }

    /** Drops the chunk from the fogged set and its snapshot; its state and
      fog block stay. */
    method RemoveFoggedChunk(x: int, z: int)
      modifies this
      ensures View() == old(View()).(foggedChunks := old(foggedChunks) - {ChunkPos(x, z)},
                                     chunkSnapshots := old(chunkSnapshots) - {ChunkPos(x, z)})
    {
      foggedChunks := foggedChunks - {ChunkPos(x, z)};
      chunkSnapshots := chunkSnapshots - {ChunkPos(x, z)};
    }

    method ClearFoggedChunks()
      modifies this
      ensures View() == old(View()).(foggedChunks := {}, chunkSnapshots := map[])
    {
      foggedChunks := {};
      chunkSnapshots := map[];
    }

    method SetChunkSnapshot(x: int, z: int, snapshot: Snapshot)
      modifies this
      ensures View() == old(View()).(chunkSnapshots := old(chunkSnapshots)[ChunkPos(x, z) := snapshot])
    {
      chunkSnapshots := chunkSnapshots[ChunkPos(x, z) := snapshot];
    }

    method SetDefaultFogBlock(blockState: BlockState)
      modifies this
      ensures View() == old(View()).(defaultFogBlock := blockState)
    {
      defaultFogBlock := blockState;
    }

    /** `updateFromApiResponse`: the entries in order, then the reset sweep
      when `resetState` is set and no entry threw. `resolve` is the block
      registry lookup, `decode` is `FogAPIClient.decodeSnapshot`. */
    method UpdateFromApiResponse(m: Message, resolve: string -> Option<BlockState>,
                                 decode: string -> Option<Snapshot>)
      modifies this
      ensures View() == ApplyMessage(old(View()), m, resolve, decode)
    {
      if m.foggedChunks.None? {
        return;
      }
      var es := m.foggedChunks.value;
      var updatedChunks: set<ChunkPos> := {};
      var i := 0;
      while i < |es|
        invariant 0 <= i <= |es|
        invariant ApplyEntries(old(View()), es[..i], resolve, decode) == (View(), true)
        invariant updatedChunks == Listed(es[..i])
      {
        assert es[..i + 1][..i] == es[..i];
        var e := es[i];
        if HasPos(e) {
          updatedChunks := updatedChunks + {PosOf(e)};
        }
        var ok := ProcessEntry(e, resolve, decode);
        if !ok {
          AbortIsFinal(old(View()), es, i + 1, resolve, decode);
          return;
        }
        i := i + 1;
      }
      assert es[..i] == es;
      if ResetRequested(m.resetState) {
        RemoveUnlisted(updatedChunks);
      }
    }

    /** The body of the loop over `foggedChunks` for one element; `ok` is
      false when an exception escapes from it. */
    method ProcessEntry(e: Entry, resolve: string -> Option<BlockState>, decode: string -> Option<Snapshot>)
      returns (ok: bool)
      modifies this
      ensures (View(), ok) == ApplyEntry(old(View()), e, resolve, decode)
    {
      if !e.ChunkData? || e.x.None? || e.z.None? {
        return false;
      }
      var pos := ChunkPos(e.x.value, e.z.value);

      match e.state {
        case Missing =>
          chunkStates := chunkStates[pos := FOGGED];
        case Present(v) =>
          var str := GetAsString(v);
          if str.None? {
            return false;
          }
          var state := ValueOf(UpperAscii(str.value));
          if state.Some? {
            chunkStates := chunkStates[pos := state.value];
          } else {
            chunkStates := chunkStates[pos := FOGGED];
          }
      }

      match e.fogBlock {
        case Missing =>
          fogBlocks := fogBlocks[pos := defaultFogBlock];
        case Present(v) =>
          var blockId := GetAsString(v);
          if blockId.None? {
            return false;
          }
          var blockState := resolve(blockId.value);
          if blockState.Some? {
            fogBlocks := fogBlocks[pos := blockState.value];
          } else {
            fogBlocks := fogBlocks[pos := defaultFogBlock];
          }
      }

      match e.snapshot {
        case Missing =>
        case Present(v) =>
          var snapshotBase64 := GetAsString(v);
          if snapshotBase64.None? {
            return false;
          }
          var snapshot := decode(snapshotBase64.value);
          if snapshot.Some? {
            chunkSnapshots := chunkSnapshots[pos := snapshot.value];
          }
      }
      return true;
    }

    /** The reset sweep: collect the `chunkStates` keys outside
      `updatedChunks`, then remove each from the three maps. */
    method RemoveUnlisted(updatedChunks: set<ChunkPos>)
      modifies this
      ensures View() == Sweep(old(View()), updatedChunks)
    {
      var toRemove: set<ChunkPos> := {};
      var keys := chunkStates.Keys;
      while keys != {}
        invariant keys <= chunkStates.Keys
        invariant toRemove == (chunkStates.Keys - keys) - updatedChunks
        decreases keys
      {
        var pos :| pos in keys;
        if pos !in updatedChunks {
          toRemove := toRemove + {pos};
        }
        keys := keys - {pos};
      }

      var rest := toRemove;
      while rest != {}
        invariant rest <= toRemove
        invariant chunkStates == old(chunkStates) - (toRemove - rest)
        invariant fogBlocks == old(fogBlocks) - (toRemove - rest)
        invariant chunkSnapshots == old(chunkSnapshots) - (toRemove - rest)
        invariant foggedChunks == old(foggedChunks) && defaultFogBlock == old(defaultFogBlock)
        decreases rest
      {
        var pos :| pos in rest;
        assert (toRemove - rest) + {pos} == toRemove - (rest - {pos});
        RemoveOneMore(old(chunkStates), toRemove - rest, pos);
        RemoveOneMore(old(fogBlocks), toRemove - rest, pos);
        RemoveOneMore(old(chunkSnapshots), toRemove - rest, pos);
        chunkStates := chunkStates - {pos};
        fogBlocks := fogBlocks - {pos};
        chunkSnapshots := chunkSnapshots - {pos};
        rest := rest - {pos};
      }
    }
  }
}
