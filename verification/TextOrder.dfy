/** The order of texts that sorts, versions and lookups share. */
module TextOrder {
  /** Go's `<` on strings. */
  predicate TextLess(x: string, y: string) {
    if x == "" || y == "" then |x| < |y|
    else if x[0] == y[0] then TextLess(x[1..], y[1..])
    else x[0] < y[0]
  }

  lemma {:induction false} TextLessTotal(x: string, y: string)
    ensures !(TextLess(x, y) && TextLess(y, x))
    ensures x == y || TextLess(x, y) || TextLess(y, x)
    ensures !TextLess(x, x)
  {
    if x != "" {
      TextLessTotal(x[1..], if y == "" then "" else y[1..]);
      if y != "" && x[0] == y[0] && x[1..] == y[1..] {
        assert x == [x[0]] + x[1..] == y;
      }
    }
  }

  lemma {:induction false} TextLessTransitive(x: string, y: string, z: string)
    requires TextLess(x, y) && TextLess(y, z)
    ensures TextLess(x, z)
  {
    if x != "" && y != "" && z != "" && x[0] == y[0] == z[0] {
      TextLessTransitive(x[1..], y[1..], z[1..]);
    }
  }

  lemma TextLessSplits(x: string, y: string, z: string)
    requires TextLess(x, z)
    ensures TextLess(x, y) || TextLess(y, z)
  {
    hide TextLess;
    TextLessTotal(x, y);
    if TextLess(y, x) {
      TextLessTransitive(y, x, z);
    }
  }
}
