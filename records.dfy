/**
 * The stored record `{id, data, created_at, created_by}` and the first-match
 * lookup `next((item for item in data_store if item['id'] == item_id), None)`.
 */
module Records {
  import opened Wrappers
  import opened Json

  /** One stored item. `createdBy` is `request.remote_addr`, which Flask may
      leave as `None`. */
  datatype Record = Record(id: string, data: Json, createdAt: string, createdBy: Option<string>)

  /** Some record in `items` carries `id`. */
  predicate HasId(items: seq<Record>, id: string) {
    exists i :: 0 <= i < |items| && items[i].id == id
  }

  /** No two records share an id. */
  predicate UniqueIds(items: seq<Record>) {
    forall i, j :: 0 <= i < j < |items| ==> items[i].id != items[j].id
  }

  /** The position of the first record whose id is `id`, scanning in insertion
      order, or None when there is none. */
  function IndexOfId(items: seq<Record>, id: string): (r: Option<nat>)
    ensures r.None? <==> !HasId(items, id)
    ensures r.Some? ==> r.value < |items| && items[r.value].id == id
    ensures r.Some? ==> forall j :: 0 <= j < r.value ==> items[j].id != id
  {
    if items == [] then None
    else if items[0].id == id then Some(0)
    else
      match IndexOfId(items[1..], id)
      case None => None
      case Some(k) => Some(k + 1)
  }

  /** The first record whose id is `id`, or None. */
  function FindById(items: seq<Record>, id: string): (r: Option<Record>)
    ensures r.None? <==> !HasId(items, id)
    ensures r.Some? ==> r.value.id == id
    ensures r.Some? ==> exists i :: 0 <= i < |items| && items[i] == r.value &&
                                    forall j :: 0 <= j < i ==> items[j].id != id
  {
    match IndexOfId(items, id)
    case None => None
    case Some(i) => Some(items[i])
  }

  /** When ids are unique, the lookup finds the one record with that id. */
  lemma FindUnique(items: seq<Record>, i: nat)
    requires UniqueIds(items) && i < |items|
    ensures FindById(items, items[i].id) == Some(items[i])
  {
  }

  /** Appending a record whose id is new keeps the ids unique. */
  lemma AppendFreshKeepsUnique(items: seq<Record>, r: Record)
    requires UniqueIds(items) && !HasId(items, r.id)
    ensures UniqueIds(items + [r])
  {
  }

  /** After appending a record with a new id, looking that id up yields it. */
  lemma {:induction false} FindAppendedFresh(items: seq<Record>, r: Record)
    requires !HasId(items, r.id)
    ensures FindById(items + [r], r.id) == Some(r)
  {
    if items != [] {
      assert items[0].id != r.id;
      assert (items + [r])[1..] == items[1..] + [r];
      assert !HasId(items[1..], r.id) by {
        forall j | 0 <= j < |items[1..]| ensures items[1..][j].id != r.id {
          assert items[1..][j] == items[j + 1];
        }
      }
      FindAppendedFresh(items[1..], r);
    }
  }

  /** Appending a record never changes what a lookup of any other id finds. */
  lemma {:induction false} FindAppendedOther(items: seq<Record>, r: Record, id: string)
    requires id != r.id
    ensures FindById(items + [r], id) == FindById(items, id)
  {
    if items != [] {
      assert (items + [r])[1..] == items[1..] + [r];
      FindAppendedOther(items[1..], r, id);
    }
  }
}
