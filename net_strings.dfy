/**
  The few pieces of the .NET string vocabulary that the API-key handler
  relies on: nullable strings, `string.IsNullOrEmpty`, the first-or-null
  value of a multi-valued header (`StringValues.FirstOrDefault`) and the
  ordinal, case-sensitive `string.Compare`.
 */
module NetStrings {

  /** A C# `string` reference: `Null` stands for `null`. */
  datatype NullableString = Null | Str(value: string)

  /** A header or query-string entry: an ordered sequence of values, any of which may be null. */
  type StringValues = seq<NullableString>

  /** `string.IsNullOrEmpty`. */
  predicate IsNullOrEmpty(s: NullableString) {
    s.Null? || s.value == ""
  }

  /** `FirstOrDefault` on a `StringValues`: the first value, or null when there is none. */
  function FirstOrDefault(values: StringValues): NullableString
  {
    if |values| == 0 then Null else values[0]
  }

  /**
    Ordinal comparison of two non-null strings: character by character on
    the characters' numeric values, a proper prefix sorting first. Only the
    sign of the result is meaningful.
   */
  function CompareOrdinalChars(a: string, b: string): (r: int)
    ensures -1 <= r <= 1
    ensures r == 0 <==> a == b
    decreases |a|
  {
    if |a| == 0 then
      (if |b| == 0 then 0 else -1)
    else if |b| == 0 then
      1
    else if a[0] < b[0] then
      -1
    else if a[0] > b[0] then
      1
    else
      assert a == [a[0]] + a[1..] && b == [b[0]] + b[1..];
      CompareOrdinalChars(a[1..], b[1..])
  }

  /**
    `string.Compare(a, b, StringComparison.Ordinal)`: two nulls are equal, a
    null sorts before every string, and two strings compare ordinally.
    Zero means exactly that the two references denote the same string
    content, with no case folding or culture rules.
   */
  function CompareOrdinal(a: NullableString, b: NullableString): (r: int)
    ensures -1 <= r <= 1
    ensures r == 0 <==> a == b
    ensures a.Null? && b.Str? ==> r < 0
    ensures a.Str? && b.Null? ==> r > 0
  {
    match (a, b)
    case (Null, Null) => 0
    case (Null, Str(_)) => -1
    case (Str(_), Null) => 1
    case (Str(x), Str(y)) => CompareOrdinalChars(x, y)
  }

  /** Ordinal comparison is antisymmetric: swapping the operands flips the sign. */
  lemma {:induction false} CompareOrdinalCharsAntisymmetric(a: string, b: string)
    ensures CompareOrdinalChars(a, b) == -CompareOrdinalChars(b, a)
    decreases |a|
  {
    if |a| > 0 && |b| > 0 && a[0] == b[0] {
      CompareOrdinalCharsAntisymmetric(a[1..], b[1..]);
    }
  }

  /** The same for nullable operands. */
  lemma CompareOrdinalAntisymmetric(a: NullableString, b: NullableString)
    ensures CompareOrdinal(a, b) == -CompareOrdinal(b, a)
  {
    if a.Str? && b.Str? {
      CompareOrdinalCharsAntisymmetric(a.value, b.value);
    }
  }

  /** Ordinal comparison is case-sensitive: strings that differ only in letter case are not equal. */
  lemma CompareOrdinalCaseSensitive()
    ensures CompareOrdinal(Str("Hello-World"), Str("hello-world")) != 0
    ensures CompareOrdinal(Str("hello-world"), Str("Hello-World")) != 0
  {
  }
}
