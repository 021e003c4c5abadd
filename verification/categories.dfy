/** The category tabs: only top-level (depth 1) categories are kept. */
module Categories {
  import opened Catalog

  /** The categories of `cats` whose depth is 1, in their original order. */
  function TopLevel(cats: seq<Category>): (r: seq<Category>)
    ensures |r| <= |cats|
    ensures forall i :: 0 <= i < |r| ==> r[i].categoryDepth == 1
    ensures forall c :: c in r <==> c in cats && c.categoryDepth == 1
  {
    if cats == [] then []
    else if cats[0].categoryDepth == 1 then [cats[0]] + TopLevel(cats[1..])
    else TopLevel(cats[1..])
  }

  /** Filtering a concatenation filters each part: the kept categories stay in
      the order the endpoint sent them. */
  lemma {:induction false} TopLevelAppend(a: seq<Category>, b: seq<Category>)
    ensures TopLevel(a + b) == TopLevel(a) + TopLevel(b)
  {
    if a == [] {
      assert a + b == b;
    } else {
      assert (a + b)[1..] == a[1..] + b;
      TopLevelAppend(a[1..], b);
    }
  }

  /** A list made only of top-level categories passes the filter unchanged. */
  lemma {:induction false} TopLevelKeepsTopLevel(cats: seq<Category>)
    requires forall i :: 0 <= i < |cats| ==> cats[i].categoryDepth == 1
    ensures TopLevel(cats) == cats
  {
    if cats != [] {
      TopLevelKeepsTopLevel(cats[1..]);
    }
  }
}
