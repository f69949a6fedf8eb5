/** `POST /api/actualize`: for every category in the channel map, fetch the
    channel's latest posts and store those whose link is not stored yet. */
module ActualizeApi {
  import opened NewsStore

  /** Category type to Telegram channel, in processing order. */
  const ChannelMap: seq<(string, string)> := [
    ("first", "mypervye69"),
    ("history", "myhistorytver"),
    ("tver", "tver_today"),
    ("sport", "tverorient")
  ]

  /** One post as the channel parser returns it. */
  datatype Post = Post(text: string, link: string, date: string)

  /** The parser's outcome for one channel: it raises, or returns posts. */
  datatype Fetched = FetchError | Posts(posts: seq<Post>)

  /** Success with the number of added rows, or the error response of an exception
      raised while fetching. */
  datatype ActualizeResponse = Added(count: nat) | ServerError

  /** The table's content: rows and next id. */
  datatype Db = Db(rows: seq<News>, nextId: int)

  /** One post: skipped when its link is stored (the session autoflushes the
      rows added before it), otherwise inserted with the next id. */
  function AddPost(db: Db, category: string, p: Post, now: int): Db {
    if HasLink(db.rows, p.link) then db
    else Db(db.rows + [News(db.nextId, category, p.text, p.link, p.date, now)], db.nextId + 1)
  }

  /** The posts of one channel, in order. */
  function AddPosts(db: Db, category: string, posts: seq<Post>, now: int): Db
    decreases |posts|
  {
    if posts == [] then db else AddPosts(AddPost(db, category, posts[0], now), category, posts[1..], now)
  }

  /** The outcome of the whole run: the final table, and whether a fetch
      raised (the channels before it stay committed). */
  datatype Run = Run(db: Db, failed: bool)

  function AddChannels(db: Db, channels: seq<(string, string)>, fetch: string -> Fetched, now: int): Run
    decreases |channels|
  {
    if channels == [] then Run(db, false)
    else match fetch(channels[0].1)
      case FetchError => Run(db, true)
      case Posts(ps) => AddChannels(AddPosts(db, channels[0].0, ps, now), channels[1..], fetch, now)
  }

  /** Row `n` holds the fields of post `p`. */
  predicate Copies(n: News, p: Post) {
    n.text == p.text && n.link == p.link && n.date == p.date
  }

  /** `b` extends `a`: the old rows are kept untouched as a prefix, the table
      stays well formed, and no new row repeats a link stored before it. */
  predicate Extends(a: Db, b: Db) {
    && |a.rows| <= |b.rows| && b.rows[..|a.rows|] == a.rows
    && (WellFormed(a.rows, a.nextId) ==> WellFormed(b.rows, b.nextId))
    && a.nextId <= b.nextId
    && forall k :: |a.rows| <= k < |b.rows| ==> !HasLink(b.rows[..k], b.rows[k].link)
  }

  /** Every row `b` adds over `a` is a post of `posts`, stored under
      `category` at time `now`. */
  predicate NewRowsFrom(a: Db, b: Db, category: string, posts: seq<Post>, now: int)
    requires |a.rows| <= |b.rows|
  {
    forall k :: |a.rows| <= k < |b.rows| ==>
      b.rows[k].category == category && b.rows[k].createdAt == now
      && exists i :: 0 <= i < |posts| && Copies(b.rows[k], posts[i])
  }

  lemma ExtendsTransitive(a: Db, b: Db, c: Db)
    requires Extends(a, b) && Extends(b, c)
    ensures Extends(a, c)
  {
    assert c.rows[..|a.rows|] == c.rows[..|b.rows|][..|a.rows|];
  }

  lemma AddPostExtends(db: Db, category: string, p: Post, now: int)
    ensures Extends(db, AddPost(db, category, p, now))
    ensures HasLink(AddPost(db, category, p, now).rows, p.link)
    ensures NewRowsFrom(db, AddPost(db, category, p, now), category, [p], now)
  {
    var r := AddPost(db, category, p, now);
    if !HasLink(db.rows, p.link) {
      assert r.rows[..|db.rows|] == db.rows;
      assert r.rows[|db.rows|].link == p.link;
      assert Copies(r.rows[|db.rows|], [p][0]);
    }
  }

  /** Ingesting one channel's posts keeps every old row, adds only posts
      whose link was not stored, each under the channel's category, and
      leaves every post's link stored. */
  lemma {:induction false} AddPostsExtends(db: Db, category: string, posts: seq<Post>, now: int)
    ensures Extends(db, AddPosts(db, category, posts, now))
    ensures NewRowsFrom(db, AddPosts(db, category, posts, now), category, posts, now)
    ensures forall i :: 0 <= i < |posts| ==> HasLink(AddPosts(db, category, posts, now).rows, posts[i].link)
    decreases |posts|
  {
    var r := AddPosts(db, category, posts, now);
    if posts != [] {
      var db1 := AddPost(db, category, posts[0], now);
      AddPostExtends(db, category, posts[0], now);
      AddPostsExtends(db1, category, posts[1..], now);
      ExtendsTransitive(db, db1, r);
      forall k | |db.rows| <= k < |r.rows|
        ensures r.rows[k].category == category && r.rows[k].createdAt == now
        ensures exists i :: 0 <= i < |posts| && Copies(r.rows[k], posts[i])
      {
        if k < |db1.rows| {
          assert r.rows[k] == db1.rows[k] by {
            assert r.rows[..|db1.rows|] == db1.rows;
          }
          assert Copies(r.rows[k], posts[0]);
        } else {
          var i :| 0 <= i < |posts[1..]| && Copies(r.rows[k], posts[1..][i]);
          assert posts[1..][i] == posts[i + 1];
        }
      }
      forall i | 0 <= i < |posts| ensures HasLink(r.rows, posts[i].link) {
        if i == 0 {
          var k :| 0 <= k < |db1.rows| && db1.rows[k].link == posts[0].link;
          assert r.rows[..|db1.rows|] == db1.rows;
          assert r.rows[k] == db1.rows[k];
        } else {
          assert posts[i] == posts[1..][i - 1];
        }
      }
    }
  }

  /** The rows a run adds each come from a post of a channel of the map that
      was fetched, stored under that channel's category at time `now`. */
  predicate FromChannels(a: Db, b: Db, channels: seq<(string, string)>, fetch: string -> Fetched, now: int)
    requires |a.rows| <= |b.rows|
  {
    forall k :: |a.rows| <= k < |b.rows| ==>
      b.rows[k].createdAt == now
      && exists c :: 0 <= c < |channels| && b.rows[k].category == channels[c].0
                     && fetch(channels[c].1).Posts?
                     && exists i :: 0 <= i < |fetch(channels[c].1).posts|
                                    && Copies(b.rows[k], fetch(channels[c].1).posts[i])
  }

  /** A whole run keeps every old row, keeps the table well formed, adds no
      link twice, adds only fetched posts under their channel's category,
      and, when no fetch raised, leaves every fetched link stored. */
  lemma {:induction false} AddChannelsExtends(db: Db, channels: seq<(string, string)>, fetch: string -> Fetched, now: int)
    ensures Extends(db, AddChannels(db, channels, fetch, now).db)
    ensures FromChannels(db, AddChannels(db, channels, fetch, now).db, channels, fetch, now)
    ensures var run := AddChannels(db, channels, fetch, now);
            !run.failed ==> forall c, i :: 0 <= c < |channels| && fetch(channels[c].1).Posts?
                                          && 0 <= i < |fetch(channels[c].1).posts|
                                          ==> HasLink(run.db.rows, fetch(channels[c].1).posts[i].link)
    decreases |channels|
  {
    var run := AddChannels(db, channels, fetch, now);
    if channels != [] && fetch(channels[0].1).Posts? {
      var ps := fetch(channels[0].1).posts;
      var db1 := AddPosts(db, channels[0].0, ps, now);
      var rest := channels[1..];
      AddPostsExtends(db, channels[0].0, ps, now);
      AddChannelsExtends(db1, rest, fetch, now);
      var r := run.db;
      ExtendsTransitive(db, db1, r);
      assert r.rows[..|db1.rows|] == db1.rows;
      forall k | |db.rows| <= k < |r.rows|
        ensures r.rows[k].createdAt == now
        ensures exists c :: 0 <= c < |channels| && r.rows[k].category == channels[c].0
                     && fetch(channels[c].1).Posts?
                     && exists i :: 0 <= i < |fetch(channels[c].1).posts|
                                    && Copies(r.rows[k], fetch(channels[c].1).posts[i])
      {
        if k < |db1.rows| {
          assert r.rows[k] == db1.rows[k];
          var i :| 0 <= i < |ps| && Copies(db1.rows[k], ps[i]);
          assert r.rows[k].category == channels[0].0;
        } else {
          var c :| 0 <= c < |rest| && r.rows[k].category == rest[c].0
                     && fetch(rest[c].1).Posts?
                     && exists i :: 0 <= i < |fetch(rest[c].1).posts|
                                    && Copies(r.rows[k], fetch(rest[c].1).posts[i]);
          assert rest[c] == channels[c + 1];
        }
      }
      if !run.failed {
        forall c, i | 0 <= c < |channels| && fetch(channels[c].1).Posts? && 0 <= i < |fetch(channels[c].1).posts|
          ensures HasLink(r.rows, fetch(channels[c].1).posts[i].link)
        {
          if c == 0 {
            var k :| 0 <= k < |db1.rows| && db1.rows[k].link == ps[i].link;
            assert r.rows[k] == db1.rows[k];
          } else {
            assert channels[c] == rest[c - 1];
          }
        }
      }
    }
  }

  /** The inner loop of `actualize_news` for one channel: the table becomes
      `AddPosts` of its old content, and `inserted` counts the new rows. */
  method StorePosts(table: NewsTable, category: string, posts: seq<Post>, now: int) returns (inserted: nat)
    requires table.Valid()
    modifies table
    ensures table.Valid()
    ensures Db(table.rows, table.nextId) == AddPosts(Db(old(table.rows), old(table.nextId)), category, posts, now)
    ensures |table.rows| == |old(table.rows)| + inserted
  {
    ghost var start := Db(table.rows, table.nextId);
    inserted := 0;
    var j := 0;
    while j < |posts|
      invariant 0 <= j <= |posts|
      invariant table.Valid()
      invariant AddPosts(Db(table.rows, table.nextId), category, posts[j..], now) == AddPosts(start, category, posts, now)
      invariant |table.rows| == |start.rows| + inserted
    {
      var item := posts[j];
      assert posts[j..][0] == item && posts[j..][1..] == posts[j + 1..];
      AddPostExtends(Db(table.rows, table.nextId), category, item, now);
      if !HasLink(table.rows, item.link) {
        table.rows := table.rows + [News(table.nextId, category, item.text, item.link, item.date, now)];
        table.nextId := table.nextId + 1;
        inserted := inserted + 1;
      }
      j := j + 1;
    }
    assert posts[j..] == [];
  }

  /** The handler `actualize_news` over the news table; `fetch` is the
      channel parser and `now` the creation time of the rows it adds. The
      new table is the run's, and `added` counts the inserted rows. */
  method ActualizeNews(table: NewsTable, fetch: string -> Fetched, now: int) returns (r: ActualizeResponse)
    requires table.Valid()
    modifies table
    ensures table.Valid()
    ensures |old(table.rows)| <= |table.rows|
    ensures var run := AddChannels(Db(old(table.rows), old(table.nextId)), ChannelMap, fetch, now);
            Db(table.rows, table.nextId) == run.db
            && r == if run.failed then ServerError else Added(|table.rows| - |old(table.rows)|)
  {
    ghost var whole := AddChannels(Db(table.rows, table.nextId), ChannelMap, fetch, now);
    ghost var initial := |table.rows|;
    var addedTotal: nat := 0;
    var i := 0;
    while i < |ChannelMap|
      invariant 0 <= i <= |ChannelMap|
      invariant table.Valid()
      invariant AddChannels(Db(table.rows, table.nextId), ChannelMap[i..], fetch, now) == whole
      invariant initial <= |table.rows| && addedTotal == |table.rows| - initial
    {
      var (typeName, channel) := ChannelMap[i];
      assert ChannelMap[i..][0] == ChannelMap[i] && ChannelMap[i..][1..] == ChannelMap[i + 1..];
      var fetched := fetch(channel);
      if fetched.FetchError? {
        return ServerError;
      }
      var inserted := StorePosts(table, typeName, fetched.posts, now);
      addedTotal := addedTotal + inserted;
      // the channel's rows are committed here
      i := i + 1;
    }
    assert ChannelMap[i..] == [];
    return Added(addedTotal);
  }

  /** The Db form of a well-formed table extends to the run's result. */
  lemma RunKeepsOldRows(rows: seq<News>, nextId: int, fetch: string -> Fetched, now: int)
    requires WellFormed(rows, nextId)
    ensures var run := AddChannels(Db(rows, nextId), ChannelMap, fetch, now);
            |rows| <= |run.db.rows| && run.db.rows[..|rows|] == rows
            && WellFormed(run.db.rows, run.db.nextId)
  {
    AddChannelsExtends(Db(rows, nextId), ChannelMap, fetch, now);
  }

  /** The category keys of the map are distinct, and each names one channel. */
  lemma ChannelMapIsAFunction()
    ensures forall j, k :: 0 <= j < k < |ChannelMap| ==> ChannelMap[j].0 != ChannelMap[k].0
    ensures forall j, k :: 0 <= j < k < |ChannelMap| ==> ChannelMap[j].1 != ChannelMap[k].1
  {
  }
}
