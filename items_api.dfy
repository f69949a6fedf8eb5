/** `/api/items`: list, create, get and delete over the items table, with
    404 for a missing id. */
module ItemsApi {
  import opened Wrappers

  datatype Item = Item(id: int, title: string, description: Option<string>)

  /** The body of `POST /api/items`. */
  datatype ItemCreate = ItemCreate(title: string, description: Option<string>)

  /** The 404 error raised for a missing item, with detail "Item not found". */
  datatype HttpError = HttpError(status: int, detail: string)

  datatype Result<T> = Ok(value: T) | Err(error: HttpError)

  const NotFound: HttpError := HttpError(404, "Item not found")

  /** Row order is id order, ids strictly increasing. */
  predicate Ascending(items: seq<Item>) {
    forall j, k :: 0 <= j < k < |items| ==> items[j].id < items[k].id
  }

  predicate Stored(items: seq<Item>, id: int) {
    exists k :: 0 <= k < |items| && items[k].id == id
  }

  /** The highest stored id, 0 for an empty table. */
  function MaxId(items: seq<Item>): (m: int)
    requires Ascending(items)
    ensures forall k :: 0 <= k < |items| ==> items[k].id <= m
    ensures items == [] ==> m == 0
    ensures items != [] ==> Stored(items, m)
  {
    if items == [] then 0 else items[|items| - 1].id
  }

  /** Lookup by primary key: the position of the item with that id. */
  function IndexOf(items: seq<Item>, id: int): (i: Option<nat>)
    ensures i.Some? ==> i.value < |items| && items[i.value].id == id
    ensures i.None? <==> !Stored(items, id)
  {
    if items == [] then None
    else if items[0].id == id then Some(0)
    else
      var rest := IndexOf(items[1..], id);
      assert forall k :: 1 <= k < |items| ==> items[k] == items[1..][k - 1];
      if rest.Some? then Some(rest.value + 1) else None
  }

  class ItemTable {
    var items: seq<Item>

    predicate Valid()
      reads this
    {
      Ascending(items)
    }

    constructor ()
      ensures Valid() && items == []
    {
      items := [];
    }

    /** `list_items`: every stored item. */
    method ListItems() returns (r: seq<Item>)
      ensures r == items
    {
      r := items;
    }

    /** `create_item`: exactly one item is added, with the id SQLite assigns
        to a rowid table without AUTOINCREMENT (one above the highest), and
        it is returned. */
    method CreateItem(data: ItemCreate) returns (r: Item)
      requires Valid()
      modifies this
      ensures Valid()
      ensures r == Item(MaxId(old(items)) + 1, data.title, data.description)
      ensures items == old(items) + [r]
      ensures !Stored(old(items), r.id)
    {
      r := Item(MaxId(items) + 1, data.title, data.description);
      items := items + [r];
    }

    /** `get_item`: the stored item with that id, or 404. */
    method GetItem(id: int) returns (r: Result<Item>)
      ensures r.Ok? <==> Stored(items, id)
      ensures r.Ok? ==> r.value in items && r.value.id == id
      ensures r.Err? ==> r.error == NotFound
    {
      var i := IndexOf(items, id);
      if i.None? {
        return Err(NotFound);
      }
      return Ok(items[i.value]);
    }

    /** `delete_item`: 404 and no change for a missing id; otherwise exactly
        the item with that id is removed and the others keep their order. */
    method DeleteItem(id: int) returns (r: Result<()>)
      requires Valid()
      modifies this
      ensures Valid()
      ensures r.Err? <==> !Stored(old(items), id)
      ensures r.Err? ==> r.error == NotFound && items == old(items)
      ensures r.Ok? ==> exists k :: 0 <= k < |old(items)| && old(items)[k].id == id
                                    && items == old(items)[..k] + old(items)[k + 1..]
      ensures !Stored(items, id)
    {
      var i := IndexOf(items, id);
      if i.None? {
        return Err(NotFound);
      }
      var k := i.value;
      items := items[..k] + items[k + 1..];
      assert forall j :: 0 <= j < |items| ==> items[j] == if j < k then old(items)[j] else old(items)[j + 1];
      return Ok(());
    }
  }
}
