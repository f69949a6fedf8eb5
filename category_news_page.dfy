/** The news feed of one category: the fetch guarded by the route parameter,
    the header, and the truncated previews. */
module CategoryNewsPage {
  import opened Wrappers
  import opened UserClient
  import opened Categories
  import opened Session

  /** An item of the `/api/news` body. */
  datatype NewsItemJson = NewsItemJson(id: int, text: string, link: string, date: string, createdAt: string)

  /** The `/api/news` body; a field that is missing is `None`. */
  datatype NewsJson = NewsJson(channel: Option<string>, count: Option<int>, items: Option<seq<NewsItemJson>>)

  /** Length of the preview when the caller gives none. */
  const DefaultMaxLength: nat := 120

  /** `truncateText`: text of at most `maxLength` characters is kept, longer
      text is cut to `maxLength` characters followed by `...`. */
  function Truncate(text: string, maxLength: nat := DefaultMaxLength): (r: string)
    ensures |text| <= maxLength ==> r == text
    ensures |text| > maxLength ==> r == text[..maxLength] + "..." && |r| == maxLength + 3
    ensures |r| <= maxLength + 3
    ensures var keep := if |text| < maxLength then |text| else maxLength;
            keep <= |r| && r[..keep] == text[..keep]
  {
    if |text| <= maxLength then text else text[..maxLength] + "..."
  }

  /** Truncating twice equals truncating once. */
  lemma TruncateIdempotent(text: string, maxLength: nat)
    ensures Truncate(Truncate(text, maxLength), maxLength) == Truncate(text, maxLength)
  {
    if |text| > maxLength {
      assert (text[..maxLength] + "...")[..maxLength] == text[..maxLength];
    }
  }

  /** One preview card: the item's id (the target of a click) and its text. */
  datatype Card = Card(id: int, preview: string)

  datatype NewsList = NotFound | Cards(cards: seq<Card>)

  function CardsOf(items: seq<NewsItemJson>): (cs: seq<Card>)
    ensures |cs| == |items|
    ensures forall k :: 0 <= k < |items| ==> cs[k] == Card(items[k].id, Truncate(items[k].text))
  {
    if items == [] then [] else [Card(items[0].id, Truncate(items[0].text))] + CardsOf(items[1..])
  }

  /** The `category` route parameter is truthy: present and non-empty. */
  predicate Present(category: Option<string>) {
    category.Some? && category.value != ""
  }

  /** The decimal digits of a natural number, as a template literal writes it. */
  function NatDigits(n: nat): (d: string)
    ensures d != [] && forall i :: 0 <= i < |d| ==> '0' <= d[i] <= '9'
    decreases n
  {
    if n < 10 then [DigitChar(n)] else NatDigits(n / 10) + [DigitChar(n % 10)]
  }

  function DigitChar(n: nat): (c: char)
    requires n < 10
    ensures '0' <= c <= '9' && c as int - '0' as int == n
  {
    ('0' as int + n) as char
  }

  /** An id written in decimal, with a leading `-` when negative. */
  function Decimal(n: int): (d: string)
    ensures PathSegment(d)
  {
    if n < 0 then "-" + NatDigits(-n) else NatDigits(n)
  }

  /** Reading a string of digits back as a number. */
  function ParseDigits(d: string): nat
    decreases |d|
  {
    if d == [] then 0
    else ParseDigits(d[..|d| - 1]) * 10 + (if '0' <= d[|d| - 1] <= '9' then d[|d| - 1] as int - '0' as int else 0)
  }

  /** Reading a decimal id back, as the detail page's `:id` parameter is read. */
  function ParseDecimal(d: string): int {
    if d != [] && d[0] == '-' then -(ParseDigits(d[1..]) as int) else ParseDigits(d)
  }

  lemma {:induction false} NatDigitsRoundTrip(n: nat)
    ensures ParseDigits(NatDigits(n)) == n
    decreases n
  {
    if n >= 10 {
      var d := NatDigits(n);
      NatDigitsRoundTrip(n / 10);
      assert d[..|d| - 1] == NatDigits(n / 10);
    }
  }

  /** Writing an id in decimal and reading it back gives the id, so distinct
      ids lead to distinct detail pages. */
  lemma DecimalRoundTrip(n: int)
    ensures ParseDecimal(Decimal(n)) == n
  {
    if n < 0 {
      assert Decimal(n)[1..] == NatDigits(-n);
      NatDigitsRoundTrip(-n);
    } else {
      NatDigitsRoundTrip(n);
    }
  }

  /** A navigation to the detail page with the router state it carries. */
  datatype NewsNavigation = NewsNavigation(to: Location, item: NewsItemJson, category: Option<string>)

  class Page {
    const category: Option<string>
    var loading: bool
    var newsData: Option<NewsJson>

    constructor (category: Option<string>)
      ensures this.category == category && loading && newsData == None
    {
      this.category := category;
      loading := true;
      newsData := None;
    }

    /** The effect on `[category]`: only with a category is the news of that
        type requested; the parsed body is kept whatever the status, and
        `loading` is cleared once the request settles. Without a category
        nothing happens and `loading` stays as it was. */
    method FetchNews(reply: Reply<NewsJson>) returns (requested: Option<string>)
      modifies this`loading, this`newsData
      ensures requested == if Present(category) then category else None
      ensures !Present(category) ==> loading == old(loading) && newsData == old(newsData)
      ensures Present(category) ==> !loading
      ensures Present(category) ==> newsData == if reply.Response? && reply.json.Some? then reply.json else old(newsData)
    {
      requested := None;
      if Present(category) {
        requested := category;
        if reply.Response? && reply.json.Some? {
          newsData := reply.json;
        }
        // otherwise the fetch or `.json()` rejects: caught and logged
        loading := false;
      }
    }

    /** The header count: the body's `count`, or 0 when there is no body or no count. */
    function HeaderCount(): (n: int)
      reads this
      ensures newsData.None? || newsData.value.count.None? ==> n == 0
      ensures newsData.Some? && newsData.value.count.Some? ==> n == newsData.value.count.value
    {
      if newsData.Some? && newsData.value.count.Some? then newsData.value.count.value else 0
    }

    /** The header label: the label of the route parameter, of the empty string when it is missing. */
    function HeaderLabel(): (shown: string)
      reads this
      ensures category.None? ==> shown == ""
      ensures category.Some? ==> shown == CategoryLabel(category.value)
    {
      CategoryLabel(category.GetOr(""))
    }

    /** `handleNewsClick`: navigate to `/news/<id>`, carrying the clicked item
        and the page's category as router state. */
    function NewsClick(item: NewsItemJson): (n: NewsNavigation)
      ensures n.to.NewsPath? && ParseDecimal(n.to.id) == item.id
      ensures n.item == item && n.category == category
    {
      DecimalRoundTrip(item.id);
      NewsNavigation(NewsPath(Decimal(item.id)), item, category)
    }

    /** The list: one truncated card per item, or "not found" for absent or
        empty items. */
    function List(): (v: NewsList)
      reads this
      ensures v.Cards? <==> newsData.Some? && newsData.value.items.Some? && |newsData.value.items.value| > 0
      ensures v.Cards? ==> v.cards == CardsOf(newsData.value.items.value)
    {
      if newsData.Some? && newsData.value.items.Some? && |newsData.value.items.value| > 0
      then Cards(CardsOf(newsData.value.items.value)) else NotFound
    }
  }

  /** Clicking the k-th card opens the detail page of exactly that card's item,
      whatever the user's registration state, and hands the page the full item
      and the category. */
  lemma CardOpensNews(page: Page, userExists: bool, k: nat)
    requires page.List().Cards? && k < |page.List().cards|
    ensures var item := page.newsData.value.items.value[k];
            var n := page.NewsClick(item);
            Route(false, userExists, n.to) == Render(NewsDetailScreen(Decimal(item.id)))
            && ParseDecimal(n.to.id) == page.List().cards[k].id
            && n.item == item && n.category == page.category
  {
  }

  /** Opening the page: a fresh page runs its effect once. Without a category
      no request is made and the loading screen stays; with one, loading ends
      and the header shows the count of the parsed body, or 0. */
  method Open(category: Option<string>, reply: Reply<NewsJson>)
      returns (requested: Option<string>, stillLoading: bool, count: int)
    ensures !Present(category) <==> requested == None
    ensures stillLoading <==> !Present(category)
    ensures requested.Some? ==> requested == category
    ensures count == if Present(category) && reply.Response? && reply.json.Some? && reply.json.value.count.Some?
                     then reply.json.value.count.value else 0
  {
    var page := new Page(category);
    requested := page.FetchNews(reply);
    stillLoading := page.loading;
    count := page.HeaderCount();
  }
}
