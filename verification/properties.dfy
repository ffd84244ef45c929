/** Properties that relate the handlers to the store and to each other. */
module CategoriesProperties {

  import opened Types
  import JsNumber
  import opened CategoriesController

  /** A category of the `categories` reply with its `total` dropped. */
  function WithoutTotals(categories: seq<CategoryWithTotal>): (stored: seq<Category>)
    ensures |stored| == |categories|
    ensures forall i :: 0 <= i < |categories| ==> stored[i] == Category(categories[i].slug, categories[i].name)
  {
    seq(|categories|, i requires 0 <= i < |categories| => Category(categories[i].slug, categories[i].name))
  }

  /** Dropping `total` from a successful `categories` reply gives back the
      store's partition for the language: same length, order and fields. */
  lemma CategoriesKeepsStoreOrder(store: Store, preferences: seq<string>)
    requires Categories(store, preferences).Ok?
    ensures WithoutTotals(Categories(store, preferences).payload) == store.categories[ResolveLanguage(preferences)]
  {
  }

  /** Each `total` of a successful `categories` reply is the number of
      summaries `list` replies with for that category's slug. */
  lemma TotalIsListLength(store: Store, preferences: seq<string>, i: int)
    requires Categories(store, preferences).Ok?
    requires 0 <= i < |Categories(store, preferences).payload|
    ensures var c := Categories(store, preferences).payload[i];
            var r := List(store, preferences, c.slug);
            r.Ok? && |r.payload| == c.total
  {
  }

  /** Every id that `list` hands out addresses, through `detail`, the item
      it summarises. */
  lemma ListedIdsResolve(store: Store, preferences: seq<string>, slug: string, i: int)
    requires List(store, preferences, slug).Ok?
    requires 0 <= i < |List(store, preferences, slug).payload|
    ensures var s := List(store, preferences, slug).payload[i];
            var d := Detail(store, preferences, slug, JsNumber.Finite(s.id as real));
            && d.Ok?
            && d.payload.id == s.id
            && d.payload.title == s.title
            && d.payload.category == s.category
            && d.payload.categoryName == s.categoryName
  {
  }

  /** Conversely, an item `detail` finds is one that `list` summarises, at
      position `id - 1`. */
  lemma DetailedItemIsListed(store: Store, preferences: seq<string>, slug: string, id: JsNumber.Number)
    requires Detail(store, preferences, slug, id).Ok?
    ensures var d := Detail(store, preferences, slug, id).payload;
            var r := List(store, preferences, slug);
            && r.Ok?
            && 1 <= d.id <= |r.payload|
            && r.payload[d.id - 1] == ItemSummary(d.id, d.title, d.category, d.categoryName)
  {
  }

  /** The handlers see the preference list only through the resolved
      language: two lists that resolve alike get identical replies. */
  lemma LanguageOnlyThroughResolution(store: Store, p: seq<string>, q: seq<string>, slug: string, id: JsNumber.Number)
    requires ResolveLanguage(p) == ResolveLanguage(q)
    ensures Categories(store, p) == Categories(store, q)
    ensures List(store, p, slug) == List(store, q, slug)
    ensures Detail(store, p, slug, id) == Detail(store, q, slug, id)
  {
  }

  /** Past the language and category checks, `detail` replies not-found for
      every id that is not an integer in `[1, n]`: NaN, an infinity, a
      fraction, zero or less, or more than the number of items. */
  lemma DetailRejectsOtherIds(store: Store, preferences: seq<string>, slug: string, id: JsNumber.Number)
    requires ResolveLanguage(preferences) in store.categories
    requires FindBySlug(store.categories[ResolveLanguage(preferences)], slug).Some?
    requires HasEntry(store.items, slug, ResolveLanguage(preferences))
    requires var n := |store.items[slug][ResolveLanguage(preferences)]|;
             || id.NaN?
             || id.Infinity?
             || (id.Finite? && id.value.Floor as real != id.value)
             || (id.Finite? && id.value < 1.0)
             || (id.Finite? && id.value > n as real)
    ensures Detail(store, preferences, slug, id) == NotFound
  {
  }

  /** A one-category, one-item example store: category `doa` in language `id`
      with one item. */
  function ExampleStore(): Store
  {
    var prayer := Item("Doa Pagi", "arabic", "latin", "translation", "notes", "fawaid", "source");
    Store(map["id" := [Category("doa", "Doa")]], map["doa" := map["id" := [prayer]]])
  }

  /** On the example store: the category total, the first item by id, and
      not-found for the id just past the end. */
  lemma ExampleReplies()
    ensures Categories(ExampleStore(), []) == Ok([CategoryWithTotal("doa", "Doa", 1)])
    ensures Detail(ExampleStore(), ["id"], "doa", JsNumber.Finite(1.0)) ==
            Ok(ItemDetail(1, "Doa Pagi", "doa", "Doa", "arabic", "latin", "translation", "notes", "fawaid", "source"))
    ensures Detail(ExampleStore(), [], "doa", JsNumber.Finite(2.0)) == NotFound
  {
    var store := ExampleStore();
    var payload := Categories(store, []).payload;
    assert |payload| == 1 && payload[0] == CategoryWithTotal("doa", "Doa", 1);
    assert payload == [CategoryWithTotal("doa", "Doa", 1)];
    assert JsNumber.IsPositionId(JsNumber.Finite(1.0), 1);
  }

  /** `list` as written throws on an unknown language where `detail`, on the
      same request, replies with a bad request. */
  lemma ListCrashesOnUnknownLanguage()
    ensures List(ExampleStore(), ["xx"], "doa") == Crash
    ensures Detail(ExampleStore(), ["xx"], "doa", JsNumber.Finite(1.0)) == BadRequest(UnsupportedLanguage)
    ensures ListGuarded(ExampleStore(), ["xx"], "doa") == BadRequest(UnsupportedLanguage)
  {
  }

  /** With the guard, `list` and `detail` agree on every bad request that
      stems from the language, and `list` never throws. */
  lemma GuardedListMatchesDetailLanguageChecks(store: Store, preferences: seq<string>, slug: string, id: JsNumber.Number)
    ensures !ListGuarded(store, preferences, slug).Crash?
    ensures ListGuarded(store, preferences, slug).BadRequest? <==> Detail(store, preferences, slug, id).BadRequest?
    ensures ListGuarded(store, preferences, slug).Ok? ==> !Detail(store, preferences, slug, id).BadRequest?
  {
  }
}
