/** The three read-only handlers of app/controllers/categories.ts, each a
    function of the content store and the request inputs. The HTTP framework
    around them is left out: a handler's reply is an `Outcome`. */
module CategoriesController {

  import opened Types
  import JsNumber

  /** The message both bad-request replies carry. */
  const UnsupportedLanguage: string := "The language you requested is not available yet."

  /** The language used when the caller states no usable preference. */
  const DefaultLanguage: string := "id"

  /** What a handler replies: a success payload, a bad request with its
      message, a not-found reply, or an uncaught TypeError (a lookup on
      `undefined`) that escapes the handler. */
  datatype Outcome<+T> = Ok(payload: T) | BadRequest(message: string) | NotFound | Crash

  /** A category of the `categories` reply: the stored category plus `total`. */
  datatype CategoryWithTotal = CategoryWithTotal(slug: string, name: string, total: nat)

  /** An entry of the `list` reply. */
  datatype ItemSummary = ItemSummary(id: int, title: string, category: string, categoryName: string)

  /** The `detail` reply. */
  datatype ItemDetail = ItemDetail(
    id: int,
    title: string,
    category: string,
    categoryName: string,
    arabic: string,
    latin: string,
    translation: string,
    notes: string,
    fawaid: string,
    source: string)

  /** `request.languages()?.[0] || 'id'`: the first preference unless there is
      none or it is the empty string, which are falsy. A missing preference
      list is the empty sequence. */
  function ResolveLanguage(preferences: seq<string>): (language: string)
    ensures language != ""
    ensures |preferences| > 0 && preferences[0] != "" ==> language == preferences[0]
    ensures |preferences| == 0 || preferences[0] == "" ==> language == DefaultLanguage
  {
    if |preferences| > 0 && preferences[0] != "" then preferences[0] else DefaultLanguage
  }

  /** `i` is the first position of `categories` whose slug is `slug`. */
  predicate IsFirstWithSlug(categories: seq<Category>, slug: string, i: int)
  {
    0 <= i < |categories| && categories[i].slug == slug
    && forall j :: 0 <= j < i ==> categories[j].slug != slug
  }

  /** `categories.find((i) => i.slug === slug)`. */
  function FindBySlug(categories: seq<Category>, slug: string): (found: Option<Category>)
    ensures found.None? <==> forall i :: 0 <= i < |categories| ==> categories[i].slug != slug
    ensures found.Some? ==> exists i :: IsFirstWithSlug(categories, slug, i) && categories[i] == found.value
  {
    if |categories| == 0 then None
    else if categories[0].slug == slug then
      assert IsFirstWithSlug(categories, slug, 0);
      Some(categories[0])
    else
      var found := FindBySlug(categories[1..], slug);
      if found.Some? then
        var i :| IsFirstWithSlug(categories[1..], slug, i) && categories[1..][i] == found.value;
        assert IsFirstWithSlug(categories, slug, i + 1);
        found
      else
        found
  }

  /** The `.map` of the `categories` handler: each category with the number of
      its items in `language`, or None when some `items[slug][language]`
      lookup fails (the TypeError the `.map` callback throws). */
  function WithTotals(categories: seq<Category>, language: string, items: map<string, map<string, seq<Item>>>)
    : (totals: Option<seq<CategoryWithTotal>>)
    ensures totals.Some? <==> forall i :: 0 <= i < |categories| ==> HasEntry(items, categories[i].slug, language)
    ensures totals.Some? ==> |totals.value| == |categories|
    ensures totals.Some? ==> forall i :: 0 <= i < |categories| ==>
              totals.value[i] == CategoryWithTotal(categories[i].slug, categories[i].name,
                                                   |items[categories[i].slug][language]|)
  {
    if |categories| == 0 then Some([])
    else
      var c := categories[0];
      if !HasEntry(items, c.slug, language) then None
      else
        var rest := WithTotals(categories[1..], language, items);
        if rest.None? then
          None
        else
          Some([CategoryWithTotal(c.slug, c.name, |items[c.slug][language]|)] + rest.value)
  }

  /** The `categories` handler. */
  function Categories(store: Store, preferences: seq<string>): (r: Outcome<seq<CategoryWithTotal>>)
    ensures !r.NotFound?
    ensures r.BadRequest? <==> ResolveLanguage(preferences) !in store.categories
    ensures r.BadRequest? ==> r.message == UnsupportedLanguage
    ensures r.Crash? <==>
              var language := ResolveLanguage(preferences);
              language in store.categories &&
              exists i :: 0 <= i < |store.categories[language]| &&
                          !HasEntry(store.items, store.categories[language][i].slug, language)
    ensures r.Ok? ==>
              var language := ResolveLanguage(preferences);
              var categories := store.categories[language];
              && |r.payload| == |categories|
              && forall i :: 0 <= i < |categories| ==>
                   && HasEntry(store.items, categories[i].slug, language)
                   && r.payload[i] == CategoryWithTotal(categories[i].slug, categories[i].name,
                                                        |store.items[categories[i].slug][language]|)
  {
    var language := ResolveLanguage(preferences);
    if language !in store.categories then BadRequest(UnsupportedLanguage)
    else
      var totals := WithTotals(store.categories[language], language, store.items);
      if totals.None? then Crash else Ok(totals.value)
  }

  /** `Object.keys(array)` of a dense array of `length` elements, read back
      with `Number(index)`: its positions in ascending order. */
  function ArrayKeys(length: nat): (keys: seq<nat>)
    ensures |keys| == length
    ensures forall i :: 0 <= i < length ==> keys[i] == i
  {
    if length == 0 then [] else ArrayKeys(length - 1) + [length - 1]
  }

  /** The `.map` of the `list` handler over `Object.keys(items)`. */
  function Summaries(items: seq<Item>, slug: string, category: Category): (summaries: seq<ItemSummary>)
    ensures |summaries| == |items|
    ensures forall i :: 0 <= i < |items| ==>
              summaries[i] == ItemSummary(i + 1, items[i].title, slug, category.name)
  {
    var keys := ArrayKeys(|items|);
    seq(|keys|, j requires 0 <= j < |keys| =>
      var index := keys[j];
      ItemSummary(index + 1, items[index].title, slug, category.name))
  }

  /** The `list` handler. It never checks that the language is a key of the
      categories, so `.find` on the missing partition throws. */
  function List(store: Store, preferences: seq<string>, slug: string): (r: Outcome<seq<ItemSummary>>)
    ensures r.Crash? <==> ResolveLanguage(preferences) !in store.categories
    ensures r.NotFound? <==>
              var language := ResolveLanguage(preferences);
              language in store.categories &&
              ((forall i :: 0 <= i < |store.categories[language]| ==> store.categories[language][i].slug != slug)
               || slug !in store.items)
    ensures r.BadRequest? <==>
              var language := ResolveLanguage(preferences);
              language in store.categories &&
              FindBySlug(store.categories[language], slug).Some? &&
              slug in store.items && language !in store.items[slug]
    ensures r.BadRequest? ==> r.message == UnsupportedLanguage
    ensures r.Ok? ==>
              var language := ResolveLanguage(preferences);
              && language in store.categories
              && HasEntry(store.items, slug, language)
              && var category := FindBySlug(store.categories[language], slug);
              && category.Some?
              && var items := store.items[slug][language];
              && |r.payload| == |items|
              && forall i :: 0 <= i < |items| ==>
                   r.payload[i] == ItemSummary(i + 1, items[i].title, slug, category.value.name)
  {
    var language := ResolveLanguage(preferences);
    if language !in store.categories then Crash
    else
      var category := FindBySlug(store.categories[language], slug);
      if category.None? || slug !in store.items then NotFound
      else if language !in store.items[slug] then BadRequest(UnsupportedLanguage)
      else Ok(Summaries(store.items[slug][language], slug, category.value))
  }

  /** `list` with the language check that `detail` makes first: an unknown
      language is a bad request instead of a TypeError. */
  function ListGuarded(store: Store, preferences: seq<string>, slug: string): (r: Outcome<seq<ItemSummary>>)
    ensures !r.Crash?
    ensures ResolveLanguage(preferences) !in store.categories ==> r == BadRequest(UnsupportedLanguage)
    ensures ResolveLanguage(preferences) in store.categories ==> r == List(store, preferences, slug)
  {
    if ResolveLanguage(preferences) !in store.categories then BadRequest(UnsupportedLanguage)
    else List(store, preferences, slug)
  }

  /** The `detail` reply for `item`, addressed by `id`. */
  function DetailOf(item: Item, id: int, slug: string, category: Category): (detail: ItemDetail)
    ensures detail.id == id && detail.category == slug && detail.categoryName == category.name
    ensures Item(detail.title, detail.arabic, detail.latin, detail.translation,
                 detail.notes, detail.fawaid, detail.source) == item
  {
    ItemDetail(id, item.title, slug, category.name, item.arabic, item.latin,
               item.translation, item.notes, item.fawaid, item.source)
  }

  /** The `detail` handler; `id` is the value of `Number(id)`. */
  function Detail(store: Store, preferences: seq<string>, slug: string, id: JsNumber.Number)
    : (r: Outcome<ItemDetail>)
    ensures !r.Crash?
    ensures r.BadRequest? <==>
              var language := ResolveLanguage(preferences);
              language !in store.categories ||
              (FindBySlug(store.categories[language], slug).Some? &&
               slug in store.items && language !in store.items[slug])
    ensures r.BadRequest? ==> r.message == UnsupportedLanguage
    ensures r.NotFound? <==>
              var language := ResolveLanguage(preferences);
              language in store.categories &&
              ((forall i :: 0 <= i < |store.categories[language]| ==> store.categories[language][i].slug != slug)
               || slug !in store.items
               || (language in store.items[slug] &&
                   !JsNumber.IsPositionId(id, |store.items[slug][language]|)))
    ensures r.Ok? ==>
              var language := ResolveLanguage(preferences);
              && language in store.categories
              && HasEntry(store.items, slug, language)
              && var category := FindBySlug(store.categories[language], slug);
              && category.Some?
              && var items := store.items[slug][language];
              && JsNumber.IsPositionId(id, |items|)
              && var k := id.value.Floor;
              && 1 <= k <= |items|
              && r.payload == DetailOf(items[k - 1], k, slug, category.value)
  {
    var language := ResolveLanguage(preferences);
    var index := JsNumber.MinusOne(id);
    if language !in store.categories then BadRequest(UnsupportedLanguage)
    else
      var category := FindBySlug(store.categories[language], slug);
      if category.None? || slug !in store.items then NotFound
      else if language !in store.items[slug] then BadRequest(UnsupportedLanguage)
      else
        var items := store.items[slug][language];
        JsNumber.MinusOneIndexIffPositionId(id, |items|);
        if !JsNumber.IsArrayIndex(index, |items|) then NotFound
        else
          var i := JsNumber.IndexOf(index, |items|);
          Ok(DetailOf(items[i], i + 1, slug, category.value))
  }
}
