/** The items the synced store holds and the three sequence operations it applies
    to them: `findIndex`, `filter` on the id, and the upsert of `update`. */
module SyncedItems {
  import opened Wrappers
  import opened Subsequences

  /** An item of the caller's type `T extends { id?: string }`: the optional `id`
      and every other field, which the store never looks at. */
  datatype Item<V> = Item(id: Option<string>, fields: V)

  /** The identity `item.id` when it is used as a condition: both an absent id and
      the empty string are falsy, so neither identifies an item. */
  function KeyOf<V>(item: Item<V>): (k: Option<string>)
    ensures k.Some? <==> item.id.Some? && item.id.value != ""
    ensures k.Some? ==> k == item.id
  {
    if item.id.Some? && item.id.value != "" then item.id else None
  }

  /** `item.id === id`. */
  predicate HasId<V>(item: Item<V>, id: string)
    ensures HasId(item, id) ==> item.id.Some? && item.id.value == id
    ensures id != "" ==> (HasId(item, id) <==> KeyOf(item) == Some(id))
  {
    item.id == Some(id)
  }

  /** `findIndex((i) => i.id === id)`: the first position holding that id, or -1. */
  function IndexOfId<V>(s: seq<Item<V>>, id: string): (r: int)
    ensures -1 <= r < |s|
    ensures r == -1 <==> forall j :: 0 <= j < |s| ==> !HasId(s[j], id)
    ensures 0 <= r ==> HasId(s[r], id) && forall j :: 0 <= j < r ==> !HasId(s[j], id)
  {
    if s == [] then -1
    else if HasId(s[0], id) then 0
    else
      var k := IndexOfId(s[1..], id);
      if k == -1 then -1 else k + 1
  }

  /** `filter((i) => i.id !== id)`: every item without that id, in the original order. */
  function WithoutId<V>(s: seq<Item<V>>, id: string): (r: seq<Item<V>>)
    ensures forall k :: 0 <= k < |r| ==> r[k] in s && !HasId(r[k], id)
    ensures forall k :: 0 <= k < |s| && !HasId(s[k], id) ==> s[k] in r
    ensures IsSubseq(r, s)
    ensures (forall k :: 0 <= k < |s| ==> !HasId(s[k], id)) ==> r == s
  {
    if s == [] then []
    else if HasId(s[0], id) then WithoutId(s[1..], id)
    else [s[0]] + WithoutId(s[1..], id)
  }

  /** Number of items carrying the id. */
  function CountId<V>(s: seq<Item<V>>, id: string): nat
  {
    if s == [] then 0 else (if HasId(s[0], id) then 1 else 0) + CountId(s[1..], id)
  }

  /** Filtering drops exactly the items that carry the id. */
  lemma {:induction false} WithoutIdLength<V>(s: seq<Item<V>>, id: string)
    ensures |WithoutId(s, id)| + CountId(s, id) == |s|
  {
    if s != [] {
      WithoutIdLength(s[1..], id);
    }
  }

  /** The upsert of `update`: the first item with the new item's id is replaced in
      place, or the new item is appended when none has it. */
  function Upsert<V>(s: seq<Item<V>>, item: Item<V>): (r: seq<Item<V>>)
    requires KeyOf(item).Some?
    ensures item in r
    ensures (forall j :: 0 <= j < |s| ==> !HasId(s[j], KeyOf(item).value)) ==> r == s + [item]
    ensures forall i :: 0 <= i < |s| && HasId(s[i], KeyOf(item).value)
                        && (forall j :: 0 <= j < i ==> !HasId(s[j], KeyOf(item).value))
                        ==> r == s[i := item]
  {
    var index := IndexOfId(s, KeyOf(item).value);
    if index == -1 then s + [item]
    else assert s[index := item][index] == item; s[index := item]
  }
}
