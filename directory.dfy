/** The search-and-filter test shared by the directory pages (investors and
    mentors on the network page, ideas on the ideas page): an entry is shown
    when its text matches the search box AND its category matches the
    selected filter button. */
module Directory {
  import opened JsText

  /** `field?.toLowerCase().includes(query.toLowerCase())`: a missing field never matches. */
  predicate FieldHit(field: Option<string>, query: string) {
    field.Some? && Includes(Lower(field.value), Lower(query))
  }

  /** `query === '' || a?.… || b?.… || c?.…` over the three searchable fields of an entry. */
  predicate SearchHit(query: string, a: Option<string>, b: Option<string>, c: Option<string>) {
    query == "" || FieldHit(a, query) || FieldHit(b, query) || FieldHit(c, query)
  }

  /** `filter === 'all' || category === filter`. */
  predicate CategoryHit(category: Option<string>, filter: string) {
    filter == "all" || category == Some(filter)
  }

  /** An entry is visible iff it matches the search AND the category filter. */
  predicate Visible(query: string, filter: string, category: Option<string>,
                    a: Option<string>, b: Option<string>, c: Option<string>) {
    SearchHit(query, a, b, c) && CategoryHit(category, filter)
  }

  /** A query matches a present field exactly when the lower-cased query occurs at some offset
      of the lower-cased field. */
  lemma {:induction false} FieldHitMeaning(field: Option<string>, query: string)
    requires field.Some?
    ensures FieldHit(field, query) ==> exists k :: OccursAt(Lower(field.value), Lower(query), k)
    ensures (exists k :: OccursAt(Lower(field.value), Lower(query), k)) ==> FieldHit(field, query)
  {
    IncludesAt(Lower(field.value), Lower(query));
  }

  /** A query matches the same fields however it is capitalised. */
  lemma FieldHitIgnoresCase(field: Option<string>, query: string)
    ensures FieldHit(field, query) == FieldHit(field, Lower(query))
  {
    LowerIdempotent(query);
  }

}
