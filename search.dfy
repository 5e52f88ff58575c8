/**
 * The two kinds of test the list pages filter by: a named text field
 * containing a filter value, and any field of a record containing the
 * search text, both ignoring case.
 */
module Search {
  import opened Wrappers
  import opened Js
  import opened Text

  /** `field && field.toLowerCase().includes(filter.toLowerCase())`. */
  predicate FieldIncludes(field: Option<string>, filter: string) {
    Truthy(field) && IncludesIgnoreCase(field.value, filter)
  }

  /**
   * `Object.values(record).some(val => String(val).toLowerCase().includes(search.toLowerCase()))`.
   */
  predicate SomeValueIncludes(values: seq<JsValue>, search: string)
    ensures SomeValueIncludes(values, search) ==> values != []
  {
    exists v :: v in values && IncludesIgnoreCase(ToText(v), search)
  }

  /** An empty search matches every record that has at least one field. */
  lemma EmptySearchMatches(values: seq<JsValue>)
    requires values != []
    ensures SomeValueIncludes(values, "")
  {
    IncludesEmpty(ToText(values[0]));
  }

  /** A null field converts to the text "null", so searching "null" finds the record. */
  lemma NullFieldMatchesNullSearch(values: seq<JsValue>)
    requires JsNull in values
    ensures SomeValueIncludes(values, "null")
  {
    assert Lower("null") == "null";
    assert OccursAt("null", "null", 0);
  }
}
