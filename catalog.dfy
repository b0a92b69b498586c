/** `GET /categories` (`categories`): the product categories of one store. */
module Catalog {
  import opened Wrappers

  /** The pseudo-category the storefront always offers. */
  const All := "all"

  /**
   * `rows` is the `category` column of the store's products (None for SQL
   * NULL). Falsy values (NULL and the empty string) are dropped and "all" is
   * added to the set.
   */
  function Categories(rows: seq<Option<string>>): (r: set<string>)
    ensures All in r
    ensures "" !in r
    ensures forall c :: c in r && c != All ==> Some(c) in rows
  {
    (set row | row in rows && row.Some? && row.value != "" :: row.value) + {All}
  }

  /** Apart from "all", the result holds exactly the store's non-empty categories. */
  lemma CategoriesExact(rows: seq<Option<string>>, c: string)
    requires c != "" && c != All
    ensures c in Categories(rows) <==> Some(c) in rows
  {
    if Some(c) in rows {
      var row := Some(c);
      assert row in rows && row.Some? && row.value != "";
    }
  }

  /** Neither the order of the rows nor how they are split matters. */
  lemma CategoriesOfConcatenation(a: seq<Option<string>>, b: seq<Option<string>>)
    ensures Categories(a + b) == Categories(a) + Categories(b)
  {
    forall c | c in Categories(a) + Categories(b) ensures c in Categories(a + b) {
      if c != All {
        assert Some(c) in a + b;
        CategoriesExact(a + b, c);
      }
    }
  }
}
