/**
 * The `available_slots` collection and the query of
 * `GET /api/slots/available`: all slots, or those of one resource when a
 * non-empty `resource_id` is given, in stored order.
 */
module Slots {
  import opened Wrappers
  import opened ObjectIds

  const SlotsMessage: string := "Available slots endpoint"

  /** A stored slot; fields other than these are carried in `attributes`. */
  datatype Slot = Slot(
    id: Oid,
    resourceId: Option<string>,
    date: Option<string>,
    time: Option<string>,
    attributes: map<string, string>)

  /** A slot as returned to the client: its identifier replaced by its text form. */
  datatype SlotView = SlotView(
    id: string,
    resourceId: Option<string>,
    date: Option<string>,
    time: Option<string>,
    attributes: map<string, string>)

  function View(slot: Slot): (v: SlotView)
    ensures ParseId(v.id) == Some(slot.id)
    ensures v.resourceId == slot.resourceId && v.date == slot.date && v.time == slot.time
    ensures v.attributes == slot.attributes
  {
    IdStringRoundTrip(slot.id);
    SlotView(IdString(slot.id), slot.resourceId, slot.date, slot.time, slot.attributes)
  }

  /** The query document: `{}` or `{"resource_id": r}`. */
  datatype SlotQuery = AllSlots | ForResource(resourceId: string)

  /** The query for the `resource_id` argument: filter only on a present, non-empty value. */
  function QueryFor(resourceId: Option<string>): (q: SlotQuery)
    ensures q.ForResource? <==> resourceId.Some? && resourceId.value != ""
    ensures q.ForResource? ==> q.resourceId == resourceId.value
  {
    if resourceId.Some? && resourceId.value != "" then ForResource(resourceId.value) else AllSlots
  }

  predicate Matches(q: SlotQuery, slot: Slot) {
    q.AllSlots? || slot.resourceId == Some(q.resourceId)
  }

  /** `find(query)` over the stored slots, in stored order. */
  function Find(slots: seq<Slot>, q: SlotQuery): (r: seq<Slot>)
    ensures |r| <= |slots|
    ensures forall x :: x in r ==> x in slots && Matches(q, x)
  {
    if slots == [] then []
    else
      var found := Find(slots[..|slots| - 1], q);
      var last := slots[|slots| - 1];
      if Matches(q, last) then found + [last] else found
  }

  /** Positions of the stored slots the query matches, in increasing order. */
  function MatchingIndices(slots: seq<Slot>, q: SlotQuery): (idx: seq<nat>)
    ensures forall k :: 0 <= k < |idx| ==> idx[k] < |slots| && Matches(q, slots[idx[k]])
    ensures forall k, l :: 0 <= k < l < |idx| ==> idx[k] < idx[l]
    ensures forall i :: 0 <= i < |slots| && Matches(q, slots[i]) ==> i in idx
  {
    if slots == [] then []
    else
      var init := slots[..|slots| - 1];
      var idx := MatchingIndices(init, q);
      assert forall i :: 0 <= i < |init| ==> init[i] == slots[i];
      if Matches(q, slots[|slots| - 1]) then idx + [|slots| - 1] else idx
  }

  /**
   * The query returns exactly the matching slots, each once, in stored order:
   * its k-th result is the stored slot at the k-th matching position.
   */
  lemma {:induction false} FindInStoredOrder(slots: seq<Slot>, q: SlotQuery)
    ensures var found, idx := Find(slots, q), MatchingIndices(slots, q);
            |found| == |idx| && forall k :: 0 <= k < |found| ==> found[k] == slots[idx[k]]
  {
    if slots != [] {
      var n := |slots|;
      var init := slots[..n - 1];
      FindInStoredOrder(init, q);
      var found, idx := Find(init, q), MatchingIndices(init, q);
      var extra := if Matches(q, slots[n - 1]) then [slots[n - 1]] else [];
      var extraIdx := if Matches(q, slots[n - 1]) then [n - 1] else [];
      assert Find(slots, q) == found + extra;
      assert MatchingIndices(slots, q) == idx + extraIdx;
      forall k | 0 <= k < |found + extra|
        ensures (found + extra)[k] == slots[(idx + extraIdx)[k]]
      {
        if k < |found| {
          assert found[k] == init[idx[k]];
        }
      }
    }
  }

  /** Without a filter, the query returns every stored slot. */
  lemma {:induction false} FindAllReturnsEverySlot(slots: seq<Slot>)
    ensures Find(slots, AllSlots) == slots
  {
    if slots != [] {
      FindAllReturnsEverySlot(slots[..|slots| - 1]);
    }
  }

  /** The answer of the endpoint, which always has status 200. */
  datatype SlotsResponse = SlotsResponse(message: string, resourceId: Option<string>, availableSlots: seq<SlotView>)
}
