/**
 The sitemap aggregator (`sitemap()` in app/sitemap.js). Each of the four
 `fetch` calls is an input: what awaiting the request and, for an ok response,
 its `res.json()` produced. From the settings response and the three content
 responses it builds the ordered list of sitemap entries: the base entry, the
 ten static routes, then the first page of products, categories and blogs.
 */
module Sitemap {
  import opened JsValues
  import opened Hreflang

  /** The outcome of one `fetch(...)` and, when `res.ok`, its `res.json()`.
      `Threw` is a rejected fetch or a body that is not JSON; `NotOk` is a
      response whose status is not a success (its body is never read). */
  datatype Fetch<T> = Threw | NotOk | Ok(body: T)

  /** `data.data` of the settings body; `None` for a missing or null `languages`. */
  datatype SettingsData = SettingsData(defaultLanguage: JsString, languages: Option<seq<Language>>)

  /** The settings body; `None` for a missing or null `data`. */
  datatype SettingsBody = SettingsBody(data: Option<SettingsData>)

  /** One content item as read through `item?.slug` / `item?.updated_at`;
      a null item reads as `Item(Undefined, Undefined)`. */
  datatype Item = Item(slug: JsString, updatedAt: JsString)

  /** `json.data.data`: missing or falsy, an array, or a truthy value that is not
      an array (whose `.map` throws a TypeError). */
  datatype ItemList = Missing | Items(items: seq<Item>) | NotAList

  /** `json.data` of a content body; `None` for a missing or null `data`. */
  datatype ContentBody = ContentBody(data: Option<ItemList>)

  /** `changeFrequency: "weekly"`: every entry has it, so the type has one value. */
  datatype ChangeFrequency = Weekly

  /** `new Date()` (wall-clock, left opaque) or `new Date(item?.updated_at)`. */
  datatype Timestamp = Now | FromUpdatedAt(raw: JsString)

  /** A sitemap entry; priority is in tenths (10 is the source's `1`, 9 is `0.9`). */
  datatype Entry = Entry(
    url: string,
    lastModified: Timestamp,
    changeFrequency: ChangeFrequency,
    priority: nat,
    alternates: Alternates)

  /** The three content sources, in output order. */
  datatype Section = Products | Categories | Blogs

  const DefaultLanguage := "en"

  const PublicRoutes: seq<string> := [
    "about-us", "ads", "blogs", "contact-us", "faqs", "landing",
    "privacy-policy", "refund-policy", "subscription", "terms-and-condition"
  ]

  const BasePriority: nat := 10
  const StaticPriority: nat := 9

  /** The path between `baseUrl` and the item's slug. */
  function SectionPath(sec: Section): string
  {
    match sec
    case Products => "/ad-details/"
    case Categories => "/ads?category="
    case Blogs => "/blogs/"
  }

  function SectionPriority(sec: Section): nat
  {
    match sec
    case Products => 8
    case Categories => 7
    case Blogs => 7
  }

  /** `data?.data?.default_language || "en"` */
  function DefaultLanguageOf(body: SettingsBody): string
  {
    match body.data
    case None => DefaultLanguage
    case Some(d) => OrElse(d.defaultLanguage, DefaultLanguage)
  }

  /** `data?.data?.languages || []` */
  function LanguagesOf(body: SettingsBody): seq<Language>
  {
    match body.data
    case None => []
    case Some(d) => match d.languages
      case None => []
      case Some(langs) => langs
  }

  /** The settings step: `None` when it threw (the sitemap is then empty);
      a non-ok response keeps the initial `"en"` and `[]`. */
  function ResolveSettings(response: Fetch<SettingsBody>): Option<Settings>
  {
    match response
    case Threw => None
    case NotOk => Some(Settings(DefaultLanguage, []))
    case Ok(body) => Some(Settings(DefaultLanguageOf(body), LanguagesOf(body)))
  }

  /** `json?.data?.data` */
  function ItemListOf(body: ContentBody): ItemList
  {
    match body.data
    case None => Missing
    case Some(list) => list
  }

  /** The items a content source contributes: none unless the response is ok and
      carries an array. */
  function SectionItems(response: Fetch<ContentBody>): seq<Item>
  {
    match response
    case Ok(body) => (match ItemListOf(body) case Items(items) => items case _ => [])
    case _ => []
  }

  function BaseEntry(baseUrl: string, s: Settings): Entry
  {
    Entry(baseUrl, Now, Weekly, BasePriority, HreflangLinks(baseUrl, s))
  }

  function StaticEntry(baseUrl: string, s: Settings, route: string): Entry
  {
    var url := baseUrl + "/" + route;
    Entry(url, Now, Weekly, StaticPriority, HreflangLinks(url, s))
  }

  /** `publicRoutes.map(...)` */
  function StaticEntries(baseUrl: string, s: Settings): seq<Entry>
  {
    seq(|PublicRoutes|, i requires 0 <= i < |PublicRoutes| => StaticEntry(baseUrl, s, PublicRoutes[i]))
  }

  function ItemEntry(sec: Section, baseUrl: string, s: Settings, item: Item): Entry
  {
    var url := baseUrl + SectionPath(sec) + ToText(item.slug);
    Entry(url, FromUpdatedAt(item.updatedAt), Weekly, SectionPriority(sec), HreflangLinks(url, s))
  }

  /** `items.map(...)` for one content section. */
  function SectionEntries(sec: Section, baseUrl: string, s: Settings, items: seq<Item>): seq<Entry>
  {
    seq(|items|, i requires 0 <= i < |items| => ItemEntry(sec, baseUrl, s, items[i]))
  }

  /** The final spread: base entry, static entries, then the three sections. */
  function Assemble(baseUrl: string, s: Settings, products: seq<Item>, categories: seq<Item>, blogs: seq<Item>)
    : seq<Entry>
  {
    [BaseEntry(baseUrl, s)] + StaticEntries(baseUrl, s)
    + SectionEntries(Products, baseUrl, s, products)
    + SectionEntries(Categories, baseUrl, s, categories)
    + SectionEntries(Blogs, baseUrl, s, blogs)
  }

  /** The whole result of `sitemap()` as a function of its inputs. */
  function SitemapOf(
    baseUrl: string,
    settings: Fetch<SettingsBody>,
    products: Fetch<ContentBody>,
    categories: Fetch<ContentBody>,
    blogs: Fetch<ContentBody>): seq<Entry>
  {
    match ResolveSettings(settings)
    case None => []
    case Some(s) => Assemble(baseUrl, s, SectionItems(products), SectionItems(categories), SectionItems(blogs))
  }

  /** One content try-block: the entries stay `[]` unless the response is ok, and
      a `.map` that throws on a non-array is caught. */
  method SectionFromResponse(sec: Section, baseUrl: string, s: Settings, response: Fetch<ContentBody>)
    returns (entries: seq<Entry>)
    ensures entries == SectionEntries(sec, baseUrl, s, SectionItems(response))
  {
    entries := [];
    if response.Ok? {
      match ItemListOf(response.body) {
        case Items(items) =>
          entries := SectionEntries(sec, baseUrl, s, items);
        case Missing =>
          entries := SectionEntries(sec, baseUrl, s, []);
        case NotAList =>
      }
    }
  }

  /** `sitemap()`: the settings try-block reassigns the two locals, then the
      static and base entries, the three content try-blocks and the concatenation. */
  method Sitemap(
    baseUrl: string,
    settingsResponse: Fetch<SettingsBody>,
    productsResponse: Fetch<ContentBody>,
    categoriesResponse: Fetch<ContentBody>,
    blogsResponse: Fetch<ContentBody>)
    returns (entries: seq<Entry>)
    ensures entries == SitemapOf(baseUrl, settingsResponse, productsResponse, categoriesResponse, blogsResponse)
  {
    var defaultLanguageCode := DefaultLanguage;
    var languages: seq<Language> := [];
    match settingsResponse {
      case Threw =>
        return [];
      case NotOk =>
      case Ok(body) =>
        defaultLanguageCode := DefaultLanguageOf(body);
        languages := LanguagesOf(body);
    }
    var settings := Settings(defaultLanguageCode, languages);
    var staticSitemapEntries := StaticEntries(baseUrl, settings);
    var baseEntry := BaseEntry(baseUrl, settings);
    var productEntries := SectionFromResponse(Products, baseUrl, settings, productsResponse);
    var categoryEntries := SectionFromResponse(Categories, baseUrl, settings, categoriesResponse);
    var blogEntries := SectionFromResponse(Blogs, baseUrl, settings, blogsResponse);
    entries := [baseEntry] + staticSitemapEntries + productEntries + categoryEntries + blogEntries;
  }

  // ---------------------------------------------------------------------------
  // Properties

  /** Only a throw in the settings step empties the sitemap, whatever the
      content sources returned; otherwise there are at least the 11 fixed entries. */
  lemma SettingsThrowIsFatal(
    baseUrl: string, settings: Fetch<SettingsBody>,
    products: Fetch<ContentBody>, categories: Fetch<ContentBody>, blogs: Fetch<ContentBody>)
    ensures SitemapOf(baseUrl, settings, products, categories, blogs) == [] <==> settings.Threw?
    ensures !settings.Threw? ==> |SitemapOf(baseUrl, settings, products, categories, blogs)| >= 11
  {
  }

  /** Defaulting: a non-ok response, a missing `data`, a falsy `default_language`
      or a missing `languages` each leave the initial value in place. */
  lemma SettingsDefaults(response: Fetch<SettingsBody>)
    ensures response.NotOk? ==> ResolveSettings(response) == Some(Settings("en", []))
    ensures response.Ok? && response.body.data.None? ==> ResolveSettings(response) == Some(Settings("en", []))
    ensures response.Ok? && response.body.data.Some? ==>
      var d := response.body.data.value;
      && ResolveSettings(response).Some?
      && ResolveSettings(response).value.defaultLanguageCode == (if Truthy(d.defaultLanguage) then d.defaultLanguage.s else "en")
      && ResolveSettings(response).value.languages == (if d.languages.Some? then d.languages.value else [])
  {
  }

  /** A content source that threw, answered non-ok, or had no array under
      `data.data` contributes no items; an ok array contributes all of them. */
  lemma SectionItemsCases(response: Fetch<ContentBody>)
    ensures SectionItems(response) != [] ==> response.Ok? && ItemListOf(response.body).Items?
    ensures response.Ok? && ItemListOf(response.body).Items? ==> SectionItems(response) == ItemListOf(response.body).items
  {
  }

  /** The URL template, timestamp, priority and alternates of each kind of
      entry (the change frequency is `Weekly` by its type). */
  lemma EntryTemplates(baseUrl: string, s: Settings, route: string, item: Item)
    ensures var e := BaseEntry(baseUrl, s);
      e.url == baseUrl && e.lastModified == Now && e.priority == 10
      && e.alternates == HreflangLinks(baseUrl, s)
    ensures var e := StaticEntry(baseUrl, s, route);
      e.url == baseUrl + "/" + route && e.lastModified == Now && e.priority == 9
      && e.alternates == HreflangLinks(e.url, s)
    ensures var e := ItemEntry(Products, baseUrl, s, item);
      e.url == baseUrl + "/ad-details/" + ToText(item.slug) && e.priority == 8
    ensures var e := ItemEntry(Categories, baseUrl, s, item);
      e.url == baseUrl + "/ads?category=" + ToText(item.slug) && e.priority == 7
    ensures var e := ItemEntry(Blogs, baseUrl, s, item);
      e.url == baseUrl + "/blogs/" + ToText(item.slug) && e.priority == 7
    ensures forall sec: Section :: var e := ItemEntry(sec, baseUrl, s, item);
      e.lastModified == FromUpdatedAt(item.updatedAt)
      && e.alternates == HreflangLinks(e.url, s)
  {
  }

  /** Order and length of the assembled list: the base entry, the static routes
      in list order, then each content section's items in source order. */
  lemma AssembleLayout(baseUrl: string, s: Settings, P: seq<Item>, C: seq<Item>, B: seq<Item>)
    ensures var out := Assemble(baseUrl, s, P, C, B);
      && |out| == 11 + |P| + |C| + |B|
      && out[0] == BaseEntry(baseUrl, s)
      && (forall j :: 0 <= j < 10 ==> out[1 + j] == StaticEntry(baseUrl, s, PublicRoutes[j]))
      && (forall j :: 0 <= j < |P| ==> out[11 + j] == ItemEntry(Products, baseUrl, s, P[j]))
      && (forall j :: 0 <= j < |C| ==> out[11 + |P| + j] == ItemEntry(Categories, baseUrl, s, C[j]))
      && (forall j :: 0 <= j < |B| ==> out[11 + |P| + |C| + j] == ItemEntry(Blogs, baseUrl, s, B[j]))
  {
  }

  /** Every assembled entry has a priority between 0.7 and 1 and carries the
      hreflang map of its own URL. */
  lemma AssembleUniform(baseUrl: string, s: Settings, P: seq<Item>, C: seq<Item>, B: seq<Item>)
    ensures var out := Assemble(baseUrl, s, P, C, B);
      forall i :: 0 <= i < |out| ==>
        && 7 <= out[i].priority <= 10
        && out[i].alternates == HreflangLinks(out[i].url, s)
  {
  }

  /** Emptying one section's item list cuts exactly that section out. */
  lemma AssembleWithoutSection(baseUrl: string, s: Settings, P: seq<Item>, C: seq<Item>, B: seq<Item>)
    ensures var out := Assemble(baseUrl, s, P, C, B);
      && |out| == 11 + |P| + |C| + |B|
      && Assemble(baseUrl, s, [], C, B) == out[..11] + out[11 + |P|..]
      && Assemble(baseUrl, s, P, [], B) == out[..11 + |P|] + out[11 + |P| + |C|..]
      && Assemble(baseUrl, s, P, C, []) == out[..11 + |P| + |C|]
  {
    var head := [BaseEntry(baseUrl, s)] + StaticEntries(baseUrl, s);
    var pe := SectionEntries(Products, baseUrl, s, P);
    var ce := SectionEntries(Categories, baseUrl, s, C);
    var be := SectionEntries(Blogs, baseUrl, s, B);
    assert |head| == 11;
    assert SectionEntries(Products, baseUrl, s, []) == [];
    assert SectionEntries(Categories, baseUrl, s, []) == [];
    assert SectionEntries(Blogs, baseUrl, s, []) == [];
    ConcatCut(head, pe, ce, be);
  }

  /** Cutting one of the three last parts out of a four-part concatenation. */
  lemma ConcatCut<T>(a: seq<T>, b: seq<T>, c: seq<T>, d: seq<T>)
    ensures var x := a + b + c + d;
      && x[..|a|] + x[|a| + |b|..] == a + [] + c + d
      && x[..|a| + |b|] + x[|a| + |b| + |c|..] == a + b + [] + d
      && x[..|a| + |b| + |c|] == a + b + c + []
  {
    var x := a + b + c + d;
    assert x[..|a|] == a;
    assert x[|a| + |b|..] == c + d;
    assert x[..|a| + |b|] == a + b;
    assert x[|a| + |b| + |c|..] == d;
    assert x[..|a| + |b| + |c|] == a + b + c;
  }

  /** When the settings step did not throw, the sitemap is the assembled list
      over the resolved settings and the items each content source yielded. */
  lemma SitemapIsAssemble(
    baseUrl: string, settings: Fetch<SettingsBody>,
    products: Fetch<ContentBody>, categories: Fetch<ContentBody>, blogs: Fetch<ContentBody>)
    requires !settings.Threw?
    ensures SitemapOf(baseUrl, settings, products, categories, blogs)
         == Assemble(baseUrl, ResolveSettings(settings).value, SectionItems(products), SectionItems(categories), SectionItems(blogs))
  {
  }

  /** The response the aggregator reads for `sec`. */
  function ResponseFor(sec: Section, products: Fetch<ContentBody>, categories: Fetch<ContentBody>, blogs: Fetch<ContentBody>)
    : Fetch<ContentBody>
  {
    match sec
    case Products => products
    case Categories => categories
    case Blogs => blogs
  }

  /** Index of the first entry of `sec` in a sitemap whose settings did not throw. */
  function SectionStart(sec: Section, products: Fetch<ContentBody>, categories: Fetch<ContentBody>): nat
  {
    match sec
    case Products => 11
    case Categories => 11 + |SectionItems(products)|
    case Blogs => 11 + |SectionItems(products)| + |SectionItems(categories)|
  }

  /** Failure isolation: when one content source yields no items instead
      (it throws, answers non-ok, has no `data.data`, or has a non-array there
      whose `.map` throws), the result is the old result with exactly that
      section's entries cut out; everything before and after it is unchanged. */
  lemma FailedSourceRemovesOnlyItsSection(
    baseUrl: string, settings: Fetch<SettingsBody>,
    products: Fetch<ContentBody>, categories: Fetch<ContentBody>, blogs: Fetch<ContentBody>,
    sec: Section, failed: Fetch<ContentBody>)
    requires !settings.Threw?
    requires SectionItems(failed) == []
    ensures var out := SitemapOf(baseUrl, settings, products, categories, blogs);
      var start := SectionStart(sec, products, categories);
      var n := |SectionItems(ResponseFor(sec, products, categories, blogs))|;
      && start + n <= |out|
      && SitemapOf(baseUrl, settings,
                   if sec == Products then failed else products,
                   if sec == Categories then failed else categories,
                   if sec == Blogs then failed else blogs)
         == out[..start] + out[start + n..]
  {
    var s := ResolveSettings(settings).value;
    var P, C, B := SectionItems(products), SectionItems(categories), SectionItems(blogs);
    SitemapIsAssemble(baseUrl, settings, products, categories, blogs);
    AssembleWithoutSection(baseUrl, s, P, C, B);
    match sec {
      case Products => SitemapIsAssemble(baseUrl, settings, failed, categories, blogs);
      case Categories => SitemapIsAssemble(baseUrl, settings, products, failed, blogs);
      case Blogs => SitemapIsAssemble(baseUrl, settings, products, categories, failed);
    }
  }

  /** One product with slug "chair-1" and no `updated_at`. */
  lemma ExampleChair(s: Settings)
    ensures var e := SectionEntries(Products, "https://x.test", s, [Item(Str("chair-1"), Undefined)]);
      |e| == 1 && e[0].url == "https://x.test/ad-details/chair-1" && e[0].lastModified == FromUpdatedAt(Undefined)
  {
  }
}
