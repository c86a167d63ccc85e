/**
 This module models `string.Compare(string, string)` as the plugin uses it to
 order configuration version tags. Only the sign of the result is ever used.

 The comparison of two non-null strings is modelled as ordinal lexicographic
 order on characters (a proper prefix sorts first); a null string sorts below
 every non-null string, and two nulls compare equal, as in .NET.
 */
module StringCompare {

  import opened Wrappers

  /** Ordinal lexicographic comparison: -1, 0 or 1. */
  function CompareOrdinal(a: string, b: string): (r: int)
    ensures -1 <= r <= 1
    ensures r == 0 <==> a == b
    ensures a < b ==> r == -1  // a proper prefix sorts first
    decreases |a|
  {
    if a == [] then (if b == [] then 0 else -1)
    else if b == [] then 1
    else if a[0] < b[0] then -1
    else if b[0] < a[0] then 1
    else
      assert a == [a[0]] + a[1..] && b == [b[0]] + b[1..];
      CompareOrdinal(a[1..], b[1..])
  }

  lemma {:induction false} CompareOrdinalAntisymmetric(a: string, b: string)
    ensures CompareOrdinal(b, a) == -CompareOrdinal(a, b)
    decreases |a|
  {
    if a != [] && b != [] && a[0] == b[0] {
      CompareOrdinalAntisymmetric(a[1..], b[1..]);
    }
  }

  lemma {:induction false} CompareOrdinalTransitive(a: string, b: string, c: string)
    requires CompareOrdinal(a, b) < 0 && CompareOrdinal(b, c) < 0
    ensures CompareOrdinal(a, c) < 0
    decreases |a|
  {
    if a != [] && b != [] && c != [] && a[0] == b[0] && b[0] == c[0] {
      CompareOrdinalTransitive(a[1..], b[1..], c[1..]);
    }
  }

  /** `string.Compare(a, b)` where `None` is a null string. */
  function Compare(a: Option<string>, b: Option<string>): (r: int)
    ensures -1 <= r <= 1
    ensures r == 0 <==> a == b
    ensures a.None? && b.Some? ==> r < 0
    ensures a.Some? && b.None? ==> r > 0
  {
    match (a, b)
    case (None, None) => 0
    case (None, Some(_)) => -1
    case (Some(_), None) => 1
    case (Some(x), Some(y)) => CompareOrdinal(x, y)
  }

  /** Swapping the operands flips the sign. */
  lemma CompareAntisymmetric(a: Option<string>, b: Option<string>)
    ensures Compare(b, a) == -Compare(a, b)
  {
    if a.Some? && b.Some? {
      CompareOrdinalAntisymmetric(a.value, b.value);
    }
  }

  /** "Sorts below" is transitive, also through an equal middle operand. */
  lemma CompareTransitive(a: Option<string>, b: Option<string>, c: Option<string>)
    requires Compare(a, b) < 0 && Compare(b, c) <= 0
    ensures Compare(a, c) < 0
  {
    if a.Some? && b.Some? && c.Some? && b != c {
      CompareOrdinalTransitive(a.value, b.value, c.value);
    }
  }

  /** The order is total: any two tags are equal or one sorts below the other. */
  lemma CompareTotal(a: Option<string>, b: Option<string>)
    ensures a == b || Compare(a, b) < 0 || Compare(b, a) < 0
  {
    CompareAntisymmetric(a, b);
  }

  /** Ordinal order is not numeric: "1.10.0" sorts below "1.9.0". */
  lemma OrdinalIsNotNumeric()
    ensures Compare(Some("1.10.0"), Some("1.9.0")) < 0
  {
    var a, b := "1.10.0", "1.9.0";
    assert a[0] == b[0] && a[1] == b[1] && a[2] < b[2];
    assert CompareOrdinal(a[2..], b[2..]) == -1;
    assert CompareOrdinal(a[1..], b[1..]) == -1;
  }
}
