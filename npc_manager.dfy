/** The NPC registry (`NPCManager`): the set of UUIDs that identify NPC
    players, its add/remove/clear operations, and the batch ingestion of a
    server response. Every change of the set notifies the update listener. */
module NpcRegistry {
  import opened Common
  import opened Json

  /** A `java.util.UUID`, as its two 64-bit halves. */
  datatype Uuid = Uuid(mostSigBits: int, leastSigBits: int)

  /** An element of the `npcUuids` array. */
  datatype Element = PrimitiveElement(p: JsonPrimitive) | NonPrimitive

  /** The `npcUuids` member: absent, present but not an array, or an array. */
  datatype UuidsField = NoUuids | NotAnArray | UuidArray(elements: seq<Element>)

  /** A server response as `processNpcUuidsFromJson` reads it. */
  datatype Response = Response(npcUuids: UuidsField, resetNpcs: Field)

  /** `resetNpcs`: true only for a present primitive that reads as true. */
  function ResetFlag(f: Field): bool {
    f.Present? && f.v.JPrim? && AsBoolean(f.v.p)
  }

  /** The UUID that element `e` yields, if it is a primitive whose text
      `UUID.fromString` (the parameter `parse`) accepts. */
  function Parsed(e: Element, parse: string -> Option<Uuid>): Option<Uuid> {
    if e.PrimitiveElement? then parse(AsString(e.p)) else None
  }

  /** The UUIDs that element `e` contributes: none or one. */
  function ParsedSet(e: Element, parse: string -> Option<Uuid>): set<Uuid> {
    if Parsed(e, parse).Some? then {Parsed(e, parse).value} else {}
  }

  /** Every valid UUID of the array. */
  function ValidUuids(es: seq<Element>, parse: string -> Option<Uuid>): set<Uuid>
    decreases |es|
  {
    if es == [] then {} else ValidUuids(es[..|es| - 1], parse) + ParsedSet(es[|es| - 1], parse)
  }

  /** A UUID is valid for the array exactly when some element parses to it. */
  lemma {:induction false} ValidUuidsMembers(es: seq<Element>, parse: string -> Option<Uuid>, u: Uuid)
    ensures u in ValidUuids(es, parse) <==> exists i :: 0 <= i < |es| && Parsed(es[i], parse) == Some(u)
    decreases |es|
  {
    if es != [] {
      var init := es[..|es| - 1];
      ValidUuidsMembers(init, parse, u);
      if u in ValidUuids(init, parse) {
        var i :| 0 <= i < |init| && Parsed(init[i], parse) == Some(u);
        assert es[i] == init[i];
      }
      if exists i :: 0 <= i < |es| && Parsed(es[i], parse) == Some(u) {
        var i :| 0 <= i < |es| && Parsed(es[i], parse) == Some(u);
        if i < |init| {
          assert init[i] == es[i];
        }
      }
    }
  }

  /** The element-by-element count of the source's loop: an element counts
      when it yields a UUID that is neither in `before` nor yielded by an
      earlier element. */
  function NewUuidCount(es: seq<Element>, parse: string -> Option<Uuid>, before: set<Uuid>): nat
    decreases |es|
  {
    if es == [] then 0
    else
      var init := es[..|es| - 1];
      var u := Parsed(es[|es| - 1], parse);
      NewUuidCount(init, parse, before) + (if u.Some? && u.value !in before + ValidUuids(init, parse) then 1 else 0)
  }

  /** One more element of the array: its UUID, if any, joins the valid
      ones, and it counts exactly when that UUID is new. */
  lemma Snoc(es: seq<Element>, i: int, parse: string -> Option<Uuid>, before: set<Uuid>)
    requires 0 <= i < |es|
    ensures ValidUuids(es[..i + 1], parse) == ValidUuids(es[..i], parse) + ParsedSet(es[i], parse)
    ensures var u := Parsed(es[i], parse);
      NewUuidCount(es[..i + 1], parse, before)
        == NewUuidCount(es[..i], parse, before) + (if u.Some? && u.value !in before + ValidUuids(es[..i], parse) then 1 else 0)
  {
    assert es[..i + 1][..i] == es[..i];
  }

  /** Counting one more UUID: it counts when it is neither known before
      the batch nor already added by it. */
  lemma CountStep(added: set<Uuid>, before: set<Uuid>, u: Uuid)
    ensures u !in before + added ==> |(added + {u}) - before| == |added - before| + 1
    ensures u in before + added ==> (added + {u}) - before == added - before
  {
    if u !in before + added {
      assert (added + {u}) - before == (added - before) + {u};
    }
  }

  /** The loop's count is the number of distinct valid UUIDs that were not
      present before: malformed strings, non-primitive elements, duplicates
      within the array and UUIDs already known add nothing. */
  lemma {:induction false} NewUuidCountIsNewUuids(es: seq<Element>, parse: string -> Option<Uuid>, before: set<Uuid>)
    ensures NewUuidCount(es, parse, before) == |ValidUuids(es, parse) - before|
    decreases |es|
  {
    if es != [] {
      var init := es[..|es| - 1];
      NewUuidCountIsNewUuids(init, parse, before);
      var u := Parsed(es[|es| - 1], parse);
      if u.Some? {
        CountStep(ValidUuids(init, parse), before, u.value);
      } else {
        assert ValidUuids(es, parse) == ValidUuids(init, parse);
      }
    }
  }

  class NpcManager {
    var npcUuids: set<Uuid>
    /** Whether an update callback is registered. */
    var hasCallback: bool
    /** The copies of the set handed to the callback, oldest first. */
    var notifications: seq<set<Uuid>>

    /** A new registry; loading the saved UUIDs is not part of this model. */
    constructor ()
      ensures npcUuids == {} && !hasCallback && notifications == []
    {
      npcUuids := {};
      hasCallback := false;
      notifications := [];
    }

    /** What one notification adds to the log when `changed` holds. */
    function Notified(changed: bool): seq<set<Uuid>>
      reads this
    {
      if changed && hasCallback then [npcUuids] else []
    }

    /** `setNpcUpdateCallback`; `false` is a null callback. */
    method SetNpcUpdateCallback(present: bool)
      modifies this
      ensures hasCallback == present
      ensures npcUuids == old(npcUuids) && notifications == old(notifications)
    {
      hasCallback := present;
    }

    /** `notifyUpdateListeners`: hands a registered callback a copy of the set. */
    method NotifyUpdateListeners()
      modifies this
      ensures npcUuids == old(npcUuids) && hasCallback == old(hasCallback)
      ensures notifications == old(notifications) + Notified(true)
    {
      if hasCallback {
        notifications := notifications + [npcUuids];
      }
    }

    /** `addNpcUuid(UUID)`; `None` is null. True exactly when the UUID was
      absent, and only then are listeners notified. */
    method AddNpcUuid(uuid: Option<Uuid>) returns (added: bool)
      modifies this
      ensures uuid.None? ==> !added && npcUuids == old(npcUuids)
      ensures uuid.Some? ==> added == (uuid.value !in old(npcUuids)) && npcUuids == old(npcUuids) + {uuid.value}
      ensures hasCallback == old(hasCallback) && notifications == old(notifications) + Notified(added)
    {
      if uuid.None? {
        return false;
      }
      added := uuid.value !in npcUuids;
      npcUuids := npcUuids + {uuid.value};
      if added {
        NotifyUpdateListeners();
      }
    }

    /** `addNpcUuid(String)`: a string that does not parse adds nothing. */
    method AddNpcUuidFromString(uuidStr: string, parse: string -> Option<Uuid>) returns (added: bool)
      modifies this
      ensures parse(uuidStr).None? ==> !added && npcUuids == old(npcUuids)
      ensures parse(uuidStr).Some? ==>
        added == (parse(uuidStr).value !in old(npcUuids)) && npcUuids == old(npcUuids) + {parse(uuidStr).value}
      ensures hasCallback == old(hasCallback) && notifications == old(notifications) + Notified(added)
    {
      var uuid := parse(uuidStr);
      if uuid.None? {
        return false;
      }
      added := AddNpcUuid(uuid);
    }

    /** `removeNpcUuid`: true exactly when the UUID was present. */
    method RemoveNpcUuid(uuid: Option<Uuid>) returns (removed: bool)
      modifies this
      ensures uuid.None? ==> !removed && npcUuids == old(npcUuids)
      ensures uuid.Some? ==> removed == (uuid.value in old(npcUuids)) && npcUuids == old(npcUuids) - {uuid.value}
      ensures hasCallback == old(hasCallback) && notifications == old(notifications) + Notified(removed)
    {
      if uuid.None? {
        return false;
      }
      removed := uuid.value in npcUuids;
      npcUuids := npcUuids - {uuid.value};
      if removed {
        NotifyUpdateListeners();
      }
    }

    /** `clearNpcUuids`: notifies only when the set was not already empty. */
    method ClearNpcUuids()
      modifies this
      ensures npcUuids == {}
      ensures hasCallback == old(hasCallback) && notifications == old(notifications) + Notified(old(npcUuids) != {})
    {
      if npcUuids != {} {
        npcUuids := {};
        NotifyUpdateListeners();
      }
    }

    function IsNpcUuid(uuid: Option<Uuid>): (r: bool)
      reads this
      ensures r <==> uuid.Some? && uuid.value in npcUuids
    {
      uuid.Some? && uuid.value in npcUuids
    }

    /** `getAllNpcUuids`: a copy of the set. */
    function GetAllNpcUuids(): (r: set<Uuid>)
      reads this
      ensures forall u :: u in r <==> IsNpcUuid(Some(u))
    {
      npcUuids
    }

    function GetNpcCount(): (r: nat)
      reads this
      ensures r == |GetAllNpcUuids()|
    {
      |npcUuids|
    }

    /** One iteration of the loop of `processNpcUuidsFromJson`: a primitive
      element that parses adds its UUID; `added` is whether it was new. */
    method AddElement(e: Element, parse: string -> Option<Uuid>) returns (added: bool)
      modifies this
      ensures npcUuids == old(npcUuids) + ParsedSet(e, parse)
      ensures added <==> Parsed(e, parse).Some? && Parsed(e, parse).value !in old(npcUuids)
      ensures hasCallback == old(hasCallback) && notifications == old(notifications)
    {
      added := false;
      if e.PrimitiveElement? {
        var uuid := parse(AsString(e.p));
        if uuid.Some? {
          if uuid.value !in npcUuids {
            npcUuids := npcUuids + {uuid.value};
            added := true;
          }
        }
      }
    }

    /** The loop of `processNpcUuidsFromJson`: adds every valid UUID of the
      array and counts the ones that were not present. */
    method AddParsed(es: seq<Element>, parse: string -> Option<Uuid>) returns (processedCount: nat)
      modifies this
      ensures npcUuids == old(npcUuids) + ValidUuids(es, parse)
      ensures processedCount == |ValidUuids(es, parse) - old(npcUuids)|
      ensures hasCallback == old(hasCallback) && notifications == old(notifications)
    {
      processedCount := 0;
      ghost var before := npcUuids;
      for i := 0 to |es|
        invariant npcUuids == before + ValidUuids(es[..i], parse)
        invariant processedCount == NewUuidCount(es[..i], parse, before)
        invariant hasCallback == old(hasCallback) && notifications == old(notifications)
      {
        Snoc(es, i, parse, before);
        var added := AddElement(es[i], parse);
        if added {
          processedCount := processedCount + 1;
        }
      }
      assert es[..|es|] == es;
      NewUuidCountIsNewUuids(es, parse, before);
    }

    /** `processNpcUuidsFromJson`; `None` is a null response. With a reset
      the set becomes exactly the valid UUIDs of the array, otherwise it
      grows by them; the result counts the UUIDs that were new; listeners
      are notified when that count is positive or a reset happened. */
    method ProcessNpcUuidsFromJson(response: Option<Response>, parse: string -> Option<Uuid>)
      returns (processedCount: nat)
      modifies this
      ensures response.None? || !response.value.npcUuids.UuidArray? ==>
        processedCount == 0 && npcUuids == old(npcUuids) && notifications == old(notifications)
      ensures hasCallback == old(hasCallback)
      ensures response.Some? && response.value.npcUuids.UuidArray? ==>
        var es := response.value.npcUuids.elements;
        var reset := ResetFlag(response.value.resetNpcs);
        var base := if reset then {} else old(npcUuids);
        && npcUuids == base + ValidUuids(es, parse)
        && processedCount == |ValidUuids(es, parse) - base|
        && notifications == old(notifications) + Notified(processedCount > 0 || reset)
    {
      processedCount := 0;
      if response.None? || !response.value.npcUuids.UuidArray? {
        return;
      }
      var resetNpcs := false;
      if response.value.resetNpcs.Present? && response.value.resetNpcs.v.JPrim? {
        resetNpcs := AsBoolean(response.value.resetNpcs.v.p);
      }
      if resetNpcs {
        npcUuids := {};
      }
      processedCount := AddParsed(response.value.npcUuids.elements, parse);
      if processedCount > 0 || resetNpcs {
        NotifyUpdateListeners();
      }
    }
  }
}
