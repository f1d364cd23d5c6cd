/** The shopping drawer: loyalty details and a shopping list in one stored record. */
module KrogerManager {
  import opened Wrappers
  import opened Strings
  import opened Lists

  datatype Item = Item(id: int, text: string, done: bool)

  datatype KrogerData = KrogerData(loyalty: string, store: string, shopping: seq<Item>)

  /** The fields the page's two text inputs pass to `updateField`. */
  datatype Field = Loyalty | Store

  /** The record a first visit starts from. */
  const Empty := KrogerData("", "", [])

  /** `updateField`: sets the named field; the other field and the list are kept. */
  function WithField(data: KrogerData, field: Field, value: string): (r: KrogerData)
    ensures r.shopping == data.shopping
    ensures r.loyalty == if field == Loyalty then value else data.loyalty
    ensures r.store == if field == Store then value else data.store
  {
    match field
    case Loyalty => data.(loyalty := value)
    case Store => data.(store := value)
  }

  /** `addItem`: unless the text is blank, prepends an open item with the trimmed text. */
  function WithItem(data: KrogerData, draftItem: string, id: int): (r: KrogerData)
    ensures r.loyalty == data.loyalty && r.store == data.store
    ensures IsBlank(draftItem) ==> r == data
    ensures !IsBlank(draftItem) ==>
      && |r.shopping| == |data.shopping| + 1 && r.shopping[1..] == data.shopping
      && r.shopping[0] == Item(id, Trim(draftItem), false)
      && r.shopping[0].text != ""
  {
    var text := Trim(draftItem);
    if text == "" then data else data.(shopping := [Item(id, text, false)] + data.shopping)
  }

  /** `toggleItem`: flips `done` on the matching items only. */
  function WithToggled(data: KrogerData, id: int): (r: KrogerData)
    ensures r.loyalty == data.loyalty && r.store == data.store
    ensures |r.shopping| == |data.shopping|
    ensures forall i :: 0 <= i < |data.shopping| && data.shopping[i].id != id ==> r.shopping[i] == data.shopping[i]
    ensures forall i :: 0 <= i < |data.shopping| && data.shopping[i].id == id ==>
      r.shopping[i].(done := data.shopping[i].done) == data.shopping[i] && r.shopping[i].done == !data.shopping[i].done
  {
    var s := data.shopping;
    data.(shopping := seq(|s|, i requires 0 <= i < |s| => if s[i].id == id then s[i].(done := !s[i].done) else s[i]))
  }

  /** Toggling the same id twice restores the record. */
  lemma ToggleTwice(data: KrogerData, id: int)
    ensures WithToggled(WithToggled(data, id), id) == data
  {
  }

  /** `removeItem`: drops every item with the id, the rest keep their order. */
  function WithoutItem(data: KrogerData, id: int): (r: KrogerData)
    ensures r.loyalty == data.loyalty && r.store == data.store
    ensures IsSubsequence(r.shopping, data.shopping)
    ensures forall i :: multiset(r.shopping)[i] == if i.id != id then multiset(data.shopping)[i] else 0
    ensures forall i :: i in r.shopping <==> i in data.shopping && i.id != id
    ensures (forall i :: i in data.shopping ==> i.id != id) ==> r == data
  {
    var keep := (i: Item) => i.id != id;
    FilterKeepsAll(data.shopping, keep);
    data.(shopping := Filter(data.shopping, keep))
  }

  /** The page's `data` state and the "kroger.manager" storage slot it is written through to. */
  class KrogerStore {
    var data: KrogerData
    var saved: KrogerData

    ghost predicate Valid()
      reads this
    {
      saved == data
    }

    constructor (stored: Option<KrogerData>)
      ensures Valid()
      ensures data == stored.GetOr(Empty)
    {
      data := stored.GetOr(Empty);
      saved := data;
    }

    method UpdateField(field: Field, value: string)
      requires Valid()
      modifies this
      ensures Valid()
      ensures data == WithField(old(data), field, value)
    {
      data := WithField(data, field, value);
      saved := data;
    }

    method AddItem(draftItem: string, now: int)
      requires Valid()
      modifies this
      ensures Valid()
      ensures data == WithItem(old(data), draftItem, now)
    {
      data := WithItem(data, draftItem, now);
      saved := data;
    }

    method ToggleItem(id: int)
      requires Valid()
      modifies this
      ensures Valid()
      ensures data == WithToggled(old(data), id)
    {
      data := WithToggled(data, id);
      saved := data;
    }

    method RemoveItem(id: int)
      requires Valid()
      modifies this
      ensures Valid()
      ensures data == WithoutItem(old(data), id)
    {
      data := WithoutItem(data, id);
      saved := data;
    }
  }
}
