/**
 * StringLengthComparator: a comparator on strings that puts longer strings
 * first and breaks ties between strings of equal length with String.compareTo.
 */
module StringLengthComparator {
  import opened Wrappers

  /** One UTF-16 code unit, the element type of a Java String. */
  newtype CodeUnit = c: int | 0 <= c < 0x1_0000

  type JavaString = seq<CodeUnit>

  /** The exception compare throws for a null argument, with its message. */
  datatype NullPointerException = NullPointerException(message: string)

  /**
   * String.compareTo: the difference of the first pair of code units that
   * differ, or the difference of the lengths when one string is a prefix of
   * the other. It is zero exactly when the two strings are equal.
   */
  function CompareTo(a: JavaString, b: JavaString): (r: int)
    ensures r == 0 <==> a == b
  {
    if |a| == 0 || |b| == 0 then |a| - |b|
    else if a[0] != b[0] then a[0] as int - b[0] as int
    else
      var r := CompareTo(a[1..], b[1..]);
      assert a == [a[0]] + a[1..] && b == [b[0]] + b[1..];
      r
  }

  /** StringLengthComparator.compare; None stands for a null argument. */
  function Compare(str1: Option<JavaString>, str2: Option<JavaString>): (r: Result<int, NullPointerException>)
    ensures r.Failure? <==> str1.None? || str2.None?
    ensures str1.None? ==> r == Failure(NullPointerException("cannot compare null to String"))
    ensures str1.Some? && str2.None? ==> r == Failure(NullPointerException("cannot compare String to null"))
    ensures r.Success? ==> (r.value == 0 <==> str1 == str2)
  {
    if str1.None? then Failure(NullPointerException("cannot compare null to String"))
    else if str2.None? then Failure(NullPointerException("cannot compare String to null"))
    else if |str1.value| > |str2.value| then Success(-1)
    else if |str1.value| < |str2.value| then Success(1)
    else Success(CompareTo(str1.value, str2.value))
  }

  /** The value compare returns for two non-null strings. */
  function CompareValue(a: JavaString, b: JavaString): int
  {
    Compare(Some(a), Some(b)).value
  }

  /**
   * The order the comparator is meant to implement, stated independently:
   * a longer string comes first; among strings of equal length, the one with
   * the smaller code unit at the first position where they differ comes first.
   */
  ghost predicate Before(a: JavaString, b: JavaString)
  {
    || |a| > |b|
    || (|a| == |b| && exists k :: 0 <= k < |a| && a[..k] == b[..k] && a[k] < b[k])
  }

  function Sign(x: int): int
  {
    if x < 0 then -1 else if x > 0 then 1 else 0
  }

  /** A longer first string is ordered before a shorter one. */
  lemma LongerComesFirst(a: JavaString, b: JavaString)
    requires |a| > |b|
    ensures CompareValue(a, b) == -1
  {
  }

  /** A shorter first string is ordered after a longer one. */
  lemma ShorterComesLast(a: JavaString, b: JavaString)
    requires |a| < |b|
    ensures CompareValue(a, b) == 1
  {
  }

  /** Equal lengths defer to String.compareTo. */
  lemma EqualLengthUsesCompareTo(a: JavaString, b: JavaString)
    requires |a| == |b|
    ensures CompareValue(a, b) == CompareTo(a, b)
  {
  }

  /** compareTo is antisymmetric in value, not only in sign. */
  lemma {:induction false} CompareToAntisymmetric(a: JavaString, b: JavaString)
    ensures CompareTo(a, b) == -CompareTo(b, a)
  {
    if |a| > 0 && |b| > 0 && a[0] == b[0] {
      CompareToAntisymmetric(a[1..], b[1..]);
    }
  }

  /** compareTo is transitive on "less than". */
  lemma {:induction false} CompareToTransitive(a: JavaString, b: JavaString, c: JavaString)
    requires CompareTo(a, b) < 0 && CompareTo(b, c) < 0
    ensures CompareTo(a, c) < 0
  {
    if |a| > 0 && |b| > 0 && |c| > 0 && a[0] == b[0] && b[0] == c[0] {
      CompareToTransitive(a[1..], b[1..], c[1..]);
    }
  }

  /** For strings of equal length, compareTo is negative exactly when the first differing unit is smaller. */
  lemma {:induction false} CompareToNegativeIffFirstDifferenceSmaller(a: JavaString, b: JavaString)
    requires |a| == |b|
    ensures CompareTo(a, b) < 0 <==> exists k :: 0 <= k < |a| && a[..k] == b[..k] && a[k] < b[k]
  {
    if |a| == 0 {
    } else if a[0] != b[0] {
      if a[0] < b[0] {
        assert a[..0] == b[..0];
      }
    } else {
      CompareToNegativeIffFirstDifferenceSmaller(a[1..], b[1..]);
      if CompareTo(a[1..], b[1..]) < 0 {
        var k :| 0 <= k < |a| - 1 && a[1..][..k] == b[1..][..k] && a[1..][k] < b[1..][k];
        assert a[..k + 1] == [a[0]] + a[1..][..k];
        assert b[..k + 1] == [b[0]] + b[1..][..k];
      } else {
        forall k | 0 <= k < |a| && a[..k] == b[..k]
          ensures !(a[k] < b[k])
        {
          if k > 0 {
            assert a[1..][..k - 1] == a[..k][1..];
            assert b[1..][..k - 1] == b[..k][1..];
            assert a[1..][k - 1] == a[k];
          }
        }
      }
    }
  }

  /** compare(s, s) is zero. */
  lemma CompareReflexive(a: JavaString)
    ensures CompareValue(a, a) == 0
  {
  }

  /** compare(a, b) is zero exactly when a and b are the same string. */
  lemma CompareZeroIffEqual(a: JavaString, b: JavaString)
    ensures CompareValue(a, b) == 0 <==> a == b
  {
  }

  /** The sign of compare(a, b) is the negation of the sign of compare(b, a). */
  lemma CompareAntisymmetric(a: JavaString, b: JavaString)
    ensures Sign(CompareValue(a, b)) == -Sign(CompareValue(b, a))
  {
    if |a| == |b| {
      CompareToAntisymmetric(a, b);
    }
  }

  /** compare is transitive: a before b and b before c gives a before c. */
  lemma CompareTransitive(a: JavaString, b: JavaString, c: JavaString)
    requires CompareValue(a, b) < 0 && CompareValue(b, c) < 0
    ensures CompareValue(a, c) < 0
  {
    if |a| == |b| == |c| {
      CompareToTransitive(a, b, c);
    }
  }

  /** compare puts a before b exactly when the longer-first order does. */
  lemma CompareNegativeIffBefore(a: JavaString, b: JavaString)
    ensures CompareValue(a, b) < 0 <==> Before(a, b)
  {
    if |a| == |b| {
      CompareToNegativeIffFirstDifferenceSmaller(a, b);
    }
  }
}
