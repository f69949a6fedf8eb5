/** `GET /api/news`: the newest news of one type, at most 50. */
module NewsApi {
  import opened NewsStore

  /** The row limit of the query. */
  const PageSize: nat := 50

  /** The last row of an id-ordered table has the highest id; the others
      form an id-ordered table. */
  lemma DropLast(rows: seq<News>)
    requires Ascending(rows) && rows != []
    ensures Ascending(rows[..|rows| - 1])
    ensures forall n :: n in rows[..|rows| - 1] ==> n in rows && n.id < rows[|rows| - 1].id
    ensures forall n :: n in rows ==> n == rows[|rows| - 1] || n in rows[..|rows| - 1]
  {
    var init := rows[..|rows| - 1];
    forall n | n in init ensures n in rows && n.id < rows[|rows| - 1].id {
      var k :| 0 <= k < |init| && init[k] == n;
      assert rows[k] == n;
    }
    forall n | n in rows ensures n == rows[|rows| - 1] || n in init {
      var k :| 0 <= k < |rows| && rows[k] == n;
      if k < |rows| - 1 { assert init[k] == n; }
    }
  }

  /** At most `limit` rows of `category`, scanned from the end of the table,
      which holds the highest ids. */
  function Newest(rows: seq<News>, category: string, limit: nat): (r: seq<News>)
    requires Ascending(rows)
    ensures |r| <= limit
    ensures forall k :: 0 <= k < |r| ==> r[k] in rows && r[k].category == category
    decreases |rows|
  {
    if rows == [] || limit == 0 then []
    else
      var last := rows[|rows| - 1];
      var init := rows[..|rows| - 1];
      DropLast(rows);
      if last.category == category then [last] + Newest(init, category, limit - 1)
      else Newest(init, category, limit)
  }

  predicate Descending(r: seq<News>) {
    forall j, k :: 0 <= j < k < |r| ==> r[j].id > r[k].id
  }

  /** The returned ids strictly decrease. */
  lemma {:induction false} NewestDescending(rows: seq<News>, category: string, limit: nat)
    requires Ascending(rows)
    ensures Descending(Newest(rows, category, limit))
    decreases |rows|
  {
    if rows != [] && limit != 0 {
      var last := rows[|rows| - 1];
      var init := rows[..|rows| - 1];
      DropLast(rows);
      if last.category == category {
        var rest := Newest(init, category, limit - 1);
        NewestDescending(init, category, limit - 1);
        var r := [last] + rest;
        assert Newest(rows, category, limit) == r;
        forall j, k | 0 <= j < k < |r| ensures r[j].id > r[k].id {
          assert r[k] == rest[k - 1] && rest[k - 1] in init;
          if j > 0 {
            assert r[j] == rest[j - 1];
          }
        }
      } else {
        assert Newest(rows, category, limit) == Newest(init, category, limit);
        NewestDescending(init, category, limit);
      }
    }
  }

  /** The result is the highest-id news of the type: a row of that type is
      left out only when `limit` rows were returned, all with higher ids. */
  lemma {:induction false} NewestIsHighest(rows: seq<News>, category: string, limit: nat, n: News)
    requires Ascending(rows)
    requires n in rows && n.category == category && n !in Newest(rows, category, limit)
    ensures |Newest(rows, category, limit)| == limit
    ensures forall k :: 0 <= k < |Newest(rows, category, limit)| ==> n.id < Newest(rows, category, limit)[k].id
    decreases |rows|
  {
    var last := rows[|rows| - 1];
    var init := rows[..|rows| - 1];
    DropLast(rows);
    if limit != 0 {
      var r := Newest(rows, category, limit);
      if last.category == category {
        var rest := Newest(init, category, limit - 1);
        assert r == [last] + rest;
        assert n != last && n in init && n !in rest;
        NewestIsHighest(init, category, limit - 1, n);
        assert forall k :: 1 <= k < |r| ==> r[k] == rest[k - 1];
      } else {
        assert r == Newest(init, category, limit);
        assert n in init;
        NewestIsHighest(init, category, limit, n);
      }
    }
  }

  /** One entry of the response's `items`. */
  datatype NewsView = NewsView(id: int, text: string, link: string, date: string, createdAt: int)

  /** The response: the requested type as `channel`, the number of items as `count`, and the items. */
  datatype NewsResponse = NewsResponse(channel: string, count: nat, items: seq<NewsView>)

  function View(n: News): NewsView {
    NewsView(n.id, n.text, n.link, n.date, n.createdAt)
  }

  function Views(ns: seq<News>): (vs: seq<NewsView>)
    ensures |vs| == |ns|
    ensures forall k :: 0 <= k < |ns| ==> vs[k] == View(ns[k])
  {
    if ns == [] then [] else [View(ns[0])] + Views(ns[1..])
  }

  /** `get_news`: the channel echoes the requested type, the count is the
      number of items, and the items are the newest rows of that type, at
      most 50, highest id first; a type with no news gives an empty list. */
  function GetNews(rows: seq<News>, category: string): (r: NewsResponse)
    requires Ascending(rows)
    ensures r.channel == category && r.count == |r.items| <= PageSize
    ensures r.items == Views(Newest(rows, category, PageSize))
    ensures (forall k :: 0 <= k < |rows| ==> rows[k].category != category) ==> r.count == 0 && r.items == []
    ensures forall j, k :: 0 <= j < k < |r.items| ==> r.items[j].id > r.items[k].id
  {
    NewestDescending(rows, category, PageSize);
    var news := Newest(rows, category, PageSize);
    assert news != [] ==> news[0] in rows;
    NewsResponse(category, |news|, Views(news))
  }
}
