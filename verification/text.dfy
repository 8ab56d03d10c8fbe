/**
 * Splitting a string on a separator character, as Rust's `str::split` does
 * with a one-character pattern: every occurrence of the separator ends a
 * field, so `n` separators give exactly `n + 1` fields, and empty fields
 * (leading, trailing or between two adjacent separators) are kept.
 */
module Text {

  /** Number of occurrences of `c` in `s`. */
  function Occurrences(s: string, c: char): nat
  {
    if |s| == 0 then 0
    else (if s[0] == c then 1 else 0) + Occurrences(s[1..], c)
  }

  /** `fields` joined back together with one `sep` between neighbours. */
  function Join(fields: seq<string>, sep: char): string
    requires |fields| >= 1
  {
    if |fields| == 1 then fields[0]
    else fields[0] + [sep] + Join(fields[1..], sep)
  }

  /** True when no field contains the separator. */
  predicate NoSeparator(fields: seq<string>, sep: char)
  {
    forall i :: 0 <= i < |fields| ==> sep !in fields[i]
  }

  /**
   * The fields of `s` between occurrences of `sep`. There is always at least
   * one field (the empty string splits into one empty field), one more
   * field than there are separators, no field contains the separator, and
   * joining the fields back with `sep` gives `s` again.
   */
  function Split(s: string, sep: char): (fields: seq<string>)
    ensures |fields| == Occurrences(s, sep) + 1
    ensures NoSeparator(fields, sep)
    ensures Join(fields, sep) == s
    decreases |s|
  {
    if |s| == 0 then [""]
    else
      var rest := Split(s[1..], sep);
      if s[0] == sep then
        assert s == [] + [sep] + Join(rest, sep);
        [""] + rest
      else
        var fields := [[s[0]] + rest[0]] + rest[1..];
        assert fields[1..] == rest[1..];
        assert s == [s[0]] + s[1..];
        fields
  }

  /** A string without the separator is a single field. */
  lemma SplitSingle(s: string, sep: char)
    requires sep !in s
    ensures Split(s, sep) == [s]
  {
  }

  /**
   * Splitting distributes over a separator: the fields of `a + sep + b` are
   * the fields of `a` followed by the fields of `b`.
   */
  lemma {:induction false} SplitAppend(a: string, b: string, sep: char)
    ensures Split(a + [sep] + b, sep) == Split(a, sep) + Split(b, sep)
    decreases |a|
  {
    var s := a + [sep] + b;
    if |a| == 0 {
      assert s == [sep] + b;
      assert s[1..] == b;
    } else {
      assert s[1..] == a[1..] + [sep] + b;
      SplitAppend(a[1..], b, sep);
    }
  }

  /**
   * Splitting undoes joining: fields that do not contain the separator are
   * recovered exactly from their join.
   */
  lemma {:induction false} SplitJoin(fields: seq<string>, sep: char)
    requires |fields| >= 1
    requires NoSeparator(fields, sep)
    ensures Split(Join(fields, sep), sep) == fields
    decreases |fields|
  {
    SplitSingle(fields[0], sep);
    if |fields| > 1 {
      SplitAppend(fields[0], Join(fields[1..], sep), sep);
      SplitJoin(fields[1..], sep);
    }
  }
}
