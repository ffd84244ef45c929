# Categories controller of dua-dhikr, modelled in Dafny

dua-dhikr serves prayers and remembrances ("dua" and "dhikr") as static,
language-localised content: categories, and the items of each category. The
HTTP API has three read-only handlers in `app/controllers/categories.ts`:

- `categories` lists the categories of the resolved language, each with the
  `total` number of its items in that language;
- `list` lists the item summaries of one category slug, each with an `id`
  that is its 1-based position;
- `detail` returns one item, addressed by that 1-based `id`.

Every handler is a pure function of the in-memory content store (`app.data`)
and the request. The model gives each one as a Dafny function:

- `types.dfy` (module `Types`) holds the category, item and store values.
- `js_number.dfy` (module `JsNumber`) holds the JavaScript number behaviour
  that `detail` depends on.
- `categories.dfy` (module `CategoriesController`) holds the handlers. Each
  handler returns an `Outcome`, which is one of four cases:
  - `Ok` with a payload;
  - `BadRequest` with the message "The language you requested is not
    available yet.";
  - `NotFound`;
  - `Crash`, a TypeError from a lookup on `undefined` that the handler does
    not catch.
- `properties.dfy` (module `CategoriesProperties`) relates the handlers to
  the store and to each other.

The handler contracts give the order in which the checks fire. Each failure
case is stated as an if-and-only-if over the store and the request, so the
first failing check decides the reply:

- `categories`: the language must be a key of the categories, else
  `BadRequest`. Then every category must have an item entry for the language,
  else `Crash`.
- `list`: the language must be a key of the categories, else `Crash`. Then a
  category with the slug must exist and the slug must be a key of the items,
  else `NotFound`. Then the language must be a key under that slug, else
  `BadRequest`.
- `detail`: the language must be a key of the categories, else `BadRequest`.
  Then a category with the slug must exist and the slug must be a key of the
  items, else `NotFound`. Then the language must be a key under that slug,
  else `BadRequest`. Last, the id must address an item, else `NotFound`.
  `detail` never crashes.

## Model

| member | source | states |
|---|---|---|
| CategoriesController.ResolveLanguage | app/controllers/categories.ts:7 | the language is the first preference when there is one and it is non-empty, otherwise "id"; it is never empty |
| CategoriesController.FindBySlug | app/controllers/categories.ts:29 | `.find` yields nothing exactly when no category has the slug; otherwise it yields the category at the FIRST position with that slug |
| CategoriesController.WithTotals | app/controllers/categories.ts:13-18 | the `.map` succeeds exactly when every category has an item entry for the language. It then keeps length and order, and element i is category i with `total` equal to the number of its items in the language |
| CategoriesController.Categories | app/controllers/categories.ts:9-18 | BadRequest with the fixed message exactly when the language is not a key of the categories; Crash exactly when some category of that language lacks an item entry for it; never NotFound; on success, the categories in store order, each with its item count |
| CategoriesController.ArrayKeys | app/controllers/categories.ts:40-42 | `Object.keys` of a dense array of n elements yields the strings "0".."n-1" in ascending order. Read back through `Number(index)` (line 42), they are exactly the positions 0..n-1 |
| CategoriesController.Summaries | app/controllers/categories.ts:40-44 | one summary per item, in order; summary i has id i + 1 (the invariant id = index + 1), the item's title, the slug and the category's name |
| CategoriesController.List | app/controllers/categories.ts:27-44 | Crash exactly when the language is not a key of the categories. NotFound exactly when no category has the slug or the slug is not an items key. BadRequest exactly when the category exists but the language has no items under the slug. On success, one summary per stored item, with id = position + 1 and the name of the first matching category |
| CategoriesController.ListGuarded | app/controllers/categories.ts:29-37 | corrected `list`: never crashes, replies BadRequest for an unknown language, and otherwise agrees with `list` |
| CategoriesController.Detail | app/controllers/categories.ts:56-94 | never crashes. BadRequest exactly when the language is not a key of the categories, or the category exists but the language has no items under the slug. NotFound exactly when that language check passes and then the category is missing, or the slug is not an items key, or the id is not an integer in [1, n]. On success, id, slug, category name and every content field of item id - 1, unchanged |
| JsNumber.MinusOne | app/controllers/categories.ts:58 | `Number(id) - 1` is finite exactly when `Number(id)` is, and then it is one less |
| JsNumber.IndexOf | app/controllers/categories.ts:82 | an index that passes the `in` test names a position inside the array equal to the index's value |
| JsNumber.IsArrayIndex | app/controllers/categories.ts:78 | `x in array` holds exactly when x is an integer in [0, n), that is, the number of some element position |
| CategoriesController.DetailOf | app/controllers/categories.ts:83-94 | the reply carries the id, the slug, the category name and the seven item fields unchanged; dropping id, slug and name gives back the item |
| JsNumber.MinusOneIndexIffPositionId | app/controllers/categories.ts:78 | `Number(id) - 1 in items` holds exactly when id is an integer with 1 <= id <= n, and the element it names is at id - 1 |
| CategoriesProperties.CategoriesKeepsStoreOrder | app/controllers/categories.ts:13-16 | dropping `total` from a successful `categories` reply gives back the store's sequence for the language exactly |
| CategoriesProperties.TotalIsListLength | app/controllers/categories.ts:15 | every `total` in a successful `categories` reply equals the length of the successful `list` reply for that slug |
| CategoriesProperties.ListedIdsResolve | app/controllers/categories.ts:42 | every id that `list` hands out makes `detail` succeed with the same id, title, category and category name |
| CategoriesProperties.DetailedItemIsListed | app/controllers/categories.ts:82-87 | every item `detail` returns is summarised by `list` at position id - 1 |
| CategoriesProperties.LanguageOnlyThroughResolution | app/controllers/categories.ts:7-56 | all three handlers see the preferences only through the language they resolve (lines 7, 27 and 56) |
| CategoriesProperties.DetailRejectsOtherIds | app/controllers/categories.ts:78-80 | past the language and category checks, NaN, an infinity, a fraction, an id of zero or less, and an id above n all give NotFound |
| CategoriesProperties.ExampleReplies | app/controllers/categories.ts:13-94 | on a one-category, one-item store: total 1, id 1 returns the item with its fields, and id 2 is NotFound |
| CategoriesProperties.ListCrashesOnUnknownLanguage | app/controllers/categories.ts:29 | for the language "xx", `list` crashes while `detail` returns BadRequest |
| CategoriesProperties.GuardedListMatchesDetailLanguageChecks | app/controllers/categories.ts:61-63 | with the guard, `list` never crashes, and it returns BadRequest exactly when `detail` does |

## Findings

| source | as written | input that shows it | evidently intended | confidence | as-written member | corrected member |
|---|---|---|---|---|---|---|
| app/controllers/categories.ts:29 | `list` calls `.find` on `categories[language]` with no check that the language is a key, so an unknown language throws a TypeError | the preference list ["xx"] on a store whose categories hold only "id" | the "language not available" bad request, as `detail` returns at lines 61-63 | high (not executed) | CategoriesProperties.ListCrashesOnUnknownLanguage | CategoriesController.ListGuarded |

## Left out

- The Fastify wrapper (`FastifyInstance`, request, `reply.send`, the
  factory closures) is not modelled. A reply is the `Outcome` value.
- The response helpers `createSpecResponse`, `sendBadRequest` and
  `sendNotFound`, and the HTTP status codes they set, are not part of this
  model.
- Parsing the Accept-Language header (section 12.5.4 of RFC 9110) happens in
  `request.languages()`, which is not part of this model. The input is the
  already-parsed preference list. A missing list is the empty sequence.
- Coercing the `id` string to a number with `Number()` is not modelled.
  `detail` takes the resulting number: finite, NaN or an infinity.
- JsNumber.MinusOne: the arithmetic is exact, and IEEE double rounding of
  `Number(id) - 1` is not modelled. Rounding never changes the `index in
  items` test at app/controllers/categories.ts:78 while the store holds fewer
  than 2^53 items. For ids from 1 up to 2^53 the double subtraction is exact.
  Below 1, the double result stays strictly negative (never 0 or -0), so the
  test fails in both. At 2^53 or above, both values exceed any store length.
- Loading and filling `app.data` happens outside this file. The store is an
  input value.
- JavaScript's `in` also finds keys inherited from the prototype chain, for
  example `"toString" in {}`. The store's records are modelled as maps with
  only their own keys, so a language or slug that names an inherited property
  is not modelled.
- Arrays are modelled as dense sequences. Holes and extra properties, which
  `Object.keys` and `in` would see, are not modelled.
- A stored category may carry fields other than `slug` and `name`. The
  `{ ...category, total }` spread would copy them, but the model keeps only
  these two fields.
