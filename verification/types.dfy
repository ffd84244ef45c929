/** The records the controller reads: categories, items, and the in-memory
    content store they live in. The store is loaded elsewhere and is never
    changed while a request is handled, so every type here is a value. */
module Types {

  datatype Option<+T> = None | Some(value: T)

  /** A category of one language partition (`CategoryType`). */
  datatype Category = Category(slug: string, name: string)

  /** An item of a category (`DetailType`); every field is opaque text that
      the handlers pass through unchanged. */
  datatype Item = Item(
    title: string,
    arabic: string,
    latin: string,
    translation: string,
    notes: string,
    fawaid: string,
    source: string)

  /** `app.data`: categories per language, and items per slug and language.
      The public id of an item is its 1-based position in its sequence. */
  datatype Store = Store(
    categories: map<string, seq<Category>>,
    items: map<string, map<string, seq<Item>>>)

  /** `items[slug][language]` can be read without a lookup failure. */
  predicate HasEntry(items: map<string, map<string, seq<Item>>>, slug: string, language: string)
  {
    slug in items && language in items[slug]
  }
}
