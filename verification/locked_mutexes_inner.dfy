/**
 * The per-thread registry of held mutexes, `LockedMutexesInner<INLINE>`: a
 * fixed array of `INLINE` optional identities backed by an overflow set. The
 * abstract value is the ghost set `held`; `Valid` says every identity occurs at
 * most once across both tiers, which is what lets one removal forget it.
 */
module LockedMutexes {
  import opened Wrappers
  import opened MutexIds

  /** The index of the first empty slot, if any. */
  function FirstFreeSlot(slots: seq<Option<MutexID>>): (r: Option<nat>)
    ensures r.None? <==> forall k :: 0 <= k < |slots| ==> slots[k].Some?
    ensures r.Some? ==> r.value < |slots| && slots[r.value].None?
    ensures r.Some? ==> forall k :: 0 <= k < r.value ==> slots[k].Some?
  {
    if slots == [] then None
    else if slots[0].None? then Some(0)
    else
      match FirstFreeSlot(slots[1..])
      case None => None
      case Some(i) => Some(i + 1)
  }

  class LockedMutexesInner {
    /** `inline_ids`: `INLINE` is this array's length, any size including 0. */
    var inlineIds: array<Option<MutexID>>
    /** `id_set`, the overflow tier. */
    var idSet: set<MutexID>
    /** The identities the owning thread holds. */
    ghost var held: set<MutexID>

    /** `inline_ids.contains(&Some(id))`. */
    predicate InlineContains(id: MutexID)
      reads this, inlineIds
    {
      exists i | 0 <= i < inlineIds.Length :: inlineIds[i] == Some(id)
    }

    ghost predicate Valid()
      reads this, inlineIds
    {
      // no identity in two inline slots
      && (forall i, j :: 0 <= i < j < inlineIds.Length && inlineIds[i].Some? ==> inlineIds[i] != inlineIds[j])
      // no identity both inline and in the overflow set
      && (forall i :: 0 <= i < inlineIds.Length && inlineIds[i].Some? ==> inlineIds[i].value !in idSet)
      // the two tiers together hold exactly `held`
      && (forall id :: id in held <==> InlineContains(id) || id in idSet)
    }

    /** `new`: every inline slot is `None` and the overflow set is empty. */
    constructor (inline: nat)
      ensures Valid() && fresh(inlineIds)
      ensures inlineIds.Length == inline
      ensures forall i :: 0 <= i < inline ==> inlineIds[i].None?
      ensures idSet == {} && held == {}
    {
      inlineIds := new Option<MutexID>[inline](_ => None);
      idSet := {};
      held := {};
    }

    /**
     * `register_locked`: returns true iff `id` was not held; `id` is held
     * afterwards. A held `id` changes nothing. A new `id` goes into the first
     * free inline slot, but only once the overflow set has been checked for it;
     * with no free slot it is inserted into the overflow set.
     */
    method RegisterLocked(id: MutexID) returns (changed: bool)
      requires Valid()
      modifies this, inlineIds
      ensures Valid() && inlineIds == old(inlineIds)
      ensures changed <==> id !in old(held)
      ensures held == old(held) + {id}
      ensures !changed ==> inlineIds[..] == old(inlineIds[..]) && idSet == old(idSet)
      ensures changed && FirstFreeSlot(old(inlineIds[..])).Some? ==>
                && inlineIds[..] == old(inlineIds[..])[FirstFreeSlot(old(inlineIds[..])).value := Some(id)]
                && idSet == old(idSet)
      ensures changed && FirstFreeSlot(old(inlineIds[..])).None? ==>
                inlineIds[..] == old(inlineIds[..]) && idSet == old(idSet) + {id}
    {
      if InlineContains(id) {
        return false;
      }

      var i := 0;
      while i < inlineIds.Length
        invariant 0 <= i <= inlineIds.Length
        invariant forall k :: 0 <= k < i ==> inlineIds[k].Some?
        invariant inlineIds[..] == old(inlineIds[..])
      {
        if inlineIds[i].None? {
          if id in idSet {
            return false;
          } else {
            assert FirstFreeSlot(inlineIds[..]) == Some(i) by {
              var f := FirstFreeSlot(inlineIds[..]);
              assert f.Some? && f.value <= i;
            }
            inlineIds[i] := Some(id);
            held := held + {id};
            assert InlineContains(id);
            forall x | x != id
              ensures InlineContains(x) <==> old(InlineContains(x))
            {
              if old(InlineContains(x)) {
                var k :| 0 <= k < inlineIds.Length && old(inlineIds[k]) == Some(x);
                assert inlineIds[k] == Some(x);
              }
            }
            return true;
          }
        }
        i := i + 1;
      }

      changed := id !in idSet;
      idSet := idSet + {id};
      held := held + {id};
    }

    /**
     * `register_unlocked`: returns true iff `id` was held; afterwards `id` is
     * not held and every other identity is held exactly as before. An inline
     * slot holding `id` is cleared first; otherwise `id` leaves the overflow set.
     */
    method RegisterUnlocked(id: MutexID) returns (changed: bool)
      requires Valid()
      modifies this, inlineIds
      ensures Valid() && inlineIds == old(inlineIds)
      ensures changed <==> id in old(held)
      ensures held == old(held) - {id}
      ensures old(InlineContains(id)) ==> idSet == old(idSet)
      ensures !old(InlineContains(id)) ==> inlineIds[..] == old(inlineIds[..]) && idSet == old(idSet) - {id}
    {
      var i := 0;
      while i < inlineIds.Length
        invariant 0 <= i <= inlineIds.Length
        invariant forall k :: 0 <= k < i ==> inlineIds[k] != Some(id)
        invariant inlineIds[..] == old(inlineIds[..])
      {
        if inlineIds[i] == Some(id) {
          inlineIds[i] := None;
          held := held - {id};
          assert !InlineContains(id);
          forall x | x != id
            ensures InlineContains(x) <==> old(InlineContains(x))
          {
            if old(InlineContains(x)) {
              var k :| 0 <= k < inlineIds.Length && old(inlineIds[k]) == Some(x);
              assert inlineIds[k] == Some(x);
            }
          }
          return true;
        }
        i := i + 1;
      }

      changed := id in idSet;
      idSet := idSet - {id};
      held := held - {id};
    }

    /** `locked_by_current_thread`: in some inline slot or in the overflow set; reads only. */
    function LockedByCurrentThread(id: MutexID): (b: bool)
      requires Valid()
      reads this, inlineIds
      ensures b <==> id in held
    {
      InlineContains(id) || id in idSet
    }
  }

  /**
   * Three identities in a registry with one inline slot: the first takes the
   * slot and the other two go to the overflow set. Unregistering them in
   * another order succeeds for each and leaves nothing held.
   */
  method OverflowScenario()
    returns (lockedAll: seq<bool>, inlineAfter: seq<Option<MutexID>>, overflowAfter: set<MutexID>,
             unlockedAll: seq<bool>, heldAfter: seq<bool>)
    ensures lockedAll == [true, true, true]
    ensures inlineAfter == [Some(1)] && overflowAfter == {2, 3}
    ensures unlockedAll == [true, true, true]
    ensures heldAfter == [false, false, false]
  {
    var registry := new LockedMutexesInner(1);
    var a := registry.RegisterLocked(1);
    var b := registry.RegisterLocked(2);
    var c := registry.RegisterLocked(3);
    lockedAll := [a, b, c];
    inlineAfter := registry.inlineIds[..];
    overflowAfter := registry.idSet;
    assert registry.held == {1, 2, 3};
    a := registry.RegisterUnlocked(1);
    c := registry.RegisterUnlocked(3);
    b := registry.RegisterUnlocked(2);
    unlockedAll := [a, b, c];
    assert registry.held == {};
    heldAfter := [
      registry.LockedByCurrentThread(1),
      registry.LockedByCurrentThread(2),
      registry.LockedByCurrentThread(3)];
  }
}
