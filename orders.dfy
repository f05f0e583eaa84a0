/**
 * Python's `<` on the values used as priorities, and the built-in `min`.
 * An order is passed around as a function `lt`, the `__lt__` of the key type.
 */
module Orders {

  /** `lt` is irreflexive and transitive. */
  ghost predicate StrictOrder<T(!new)>(lt: (T, T) -> bool) {
    && (forall a :: !lt(a, a))
    && (forall a, b, c :: lt(a, b) && lt(b, c) ==> lt(a, c))
  }

  /** A strict order in which any two different values are comparable. */
  ghost predicate TotalOrder<T(!new)>(lt: (T, T) -> bool) {
    && StrictOrder(lt)
    && (forall a, b :: a != b ==> lt(a, b) || lt(b, a))
  }

  /** `min(s)`: scans left to right and replaces the candidate only by a smaller value. */
  function MinOf<T>(s: seq<T>, lt: (T, T) -> bool): (m: T)
    requires |s| > 0
    ensures m in s
  {
    if |s| == 1 then s[0]
    else
      var m := MinOf(s[..|s| - 1], lt);
      if lt(s[|s| - 1], m) then s[|s| - 1] else m
  }

  /** Under a strict order nothing in `s` is smaller than `min(s)`. */
  lemma {:induction false} MinOfIsMinimal<T(!new)>(s: seq<T>, lt: (T, T) -> bool)
    requires StrictOrder(lt) && |s| > 0
    ensures forall x :: x in s ==> !lt(x, MinOf(s, lt))
  {
    if |s| > 1 {
      var init := s[..|s| - 1];
      MinOfIsMinimal(init, lt);
      assert forall x :: x in s ==> x in init || x == s[|s| - 1];
    }
  }

  /** Under a total order a minimal element is unique, so `min` does not depend on the order of `s`. */
  lemma MinimalIsUnique<T(!new)>(s: seq<T>, lt: (T, T) -> bool, m: T)
    requires TotalOrder(lt) && |s| > 0
    requires m in s && forall x :: x in s ==> !lt(x, m)
    ensures MinOf(s, lt) == m
  {
    MinOfIsMinimal(s, lt);
  }

  /** Python's `str.__lt__`: code point by code point; a proper prefix is smaller. */
  function StrLess(a: string, b: string): bool
  {
    if |a| == 0 then |b| > 0
    else if |b| == 0 then false
    else if a[0] != b[0] then a[0] < b[0]
    else StrLess(a[1..], b[1..])
  }

  lemma {:induction false} StrLessIrreflexive(a: string)
    ensures !StrLess(a, a)
  {
    if |a| > 0 {
      StrLessIrreflexive(a[1..]);
    }
  }

  lemma {:induction false} StrLessTransitive(a: string, b: string, c: string)
    requires StrLess(a, b) && StrLess(b, c)
    ensures StrLess(a, c)
  {
    if |a| > 0 && a[0] == b[0] && b[0] == c[0] {
      StrLessTransitive(a[1..], b[1..], c[1..]);
    }
  }

  lemma {:induction false} StrLessConnected(a: string, b: string)
    requires a != b
    ensures StrLess(a, b) || StrLess(b, a)
  {
    if |a| > 0 && |b| > 0 && a[0] == b[0] {
      assert a == [a[0]] + a[1..] && b == [b[0]] + b[1..];
      StrLessConnected(a[1..], b[1..]);
    }
  }

  /** Python's string comparison is a total order. */
  lemma StrLessIsTotal()
    ensures TotalOrder(StrLess)
  {
    forall a ensures !StrLess(a, a) {
      StrLessIrreflexive(a);
    }
    forall a, b, c | StrLess(a, b) && StrLess(b, c) ensures StrLess(a, c) {
      StrLessTransitive(a, b, c);
    }
    forall a, b | a != b ensures StrLess(a, b) || StrLess(b, a) {
      StrLessConnected(a, b);
    }
  }

  /** Two strings that differ within a prefix of equal length compare as those prefixes do. */
  lemma {:induction false} StrLessDecidedByPrefix(a: string, x: string, b: string, y: string)
    requires |a| == |b| && a != b
    ensures StrLess(a + x, b + y) == StrLess(a, b)
  {
    if a[0] == b[0] {
      assert a[1..] != b[1..] by {
        assert a == [a[0]] + a[1..] && b == [b[0]] + b[1..];
      }
      assert (a + x)[1..] == a[1..] + x && (b + y)[1..] == b[1..] + y;
      StrLessDecidedByPrefix(a[1..], x, b[1..], y);
    }
  }
}
