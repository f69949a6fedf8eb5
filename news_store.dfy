/** The news table: rows with an autoincrement id that is never reused. */
module NewsStore {

  /** A stored news row; `category` is the source's `type` column. */
  datatype News = News(id: int, category: string, text: string, link: string, date: string, createdAt: int)

  /** Row order is id order: ids strictly increase along the table. */
  predicate Ascending(rows: seq<News>) {
    forall j, k :: 0 <= j < k < |rows| ==> rows[j].id < rows[k].id
  }

  /** The table's invariant: ids ascend and all lie below the next id. */
  predicate WellFormed(rows: seq<News>, nextId: int) {
    && Ascending(rows)
    && 1 <= nextId
    && forall k :: 0 <= k < |rows| ==> rows[k].id < nextId
  }

  /** Some stored row has this link. */
  predicate HasLink(rows: seq<News>, link: string) {
    exists k :: 0 <= k < |rows| && rows[k].link == link
  }

  class NewsTable {
    var rows: seq<News>
    /** The id the next inserted row receives (`sqlite_autoincrement`). */
    var nextId: int

    predicate Valid()
      reads this
    {
      WellFormed(rows, nextId)
    }

    constructor ()
      ensures Valid() && rows == [] && nextId == 1
    {
      rows := [];
      nextId := 1;
    }
  }
}
