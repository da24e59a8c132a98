/** Models of the PHP built-ins the migration extension relies on: how a call
    ends, empty(), join(), split() with a one-character pattern, substr(), and
    the ordering that ksort() and the ledger's ORDER BY put identifiers in. */
module Php {

  /** How a PHP call ends: normally, by throwing an exception that a
      try/catch can handle, or by a fatal error that ends the script. */
  datatype Signal = Normal | Thrown(message: string) | Fatal(message: string)

  /** A value, or the message of the exception thrown instead of it. */
  datatype Result<+T> = Success(value: T) | Failure(message: string)

  /** A value, or PHP's null. */
  datatype Option<+T> = None | Some(value: T)

  /** PHP's empty() on a string: true for "" and for "0". */
  predicate IsEmpty(s: string) {
    s == "" || s == "0"
  }

  /** join(sep, parts). */
  function Join(sep: string, parts: seq<string>): string
    decreases |parts|
  {
    if |parts| == 0 then ""
    else if |parts| == 1 then parts[0]
    else parts[0] + sep + Join(sep, parts[1..])
  }

  /** split(c, s) for a pattern that is one literal character: the pieces of
      `s` between the occurrences of `c`, in order; never an empty list. */
  function Split(s: string, c: char): (parts: seq<string>)
    ensures |parts| >= 1
    decreases |s|
  {
    if s == [] then [""]
    else
      var rest := Split(s[1..], c);
      if s[0] == c then [""] + rest
      else [[s[0]] + rest[0]] + rest[1..]
  }

  /** The position of the first `c` in `s`, or |s| when there is none. */
  function IndexOf(s: string, c: char): (k: nat)
    ensures k <= |s|
    ensures forall j :: 0 <= j < k ==> s[j] != c
    ensures k < |s| ==> s[k] == c
    decreases |s|
  {
    if s == [] then 0
    else if s[0] == c then 0
    else 1 + IndexOf(s[1..], c)
  }

  /** IndexOf finds the first `c`. */
  lemma {:induction false} IndexOfAt(s: string, c: char, k: nat)
    requires k < |s| && s[k] == c
    requires forall j :: 0 <= j < k ==> s[j] != c
    ensures IndexOf(s, c) == k
    decreases k
  {
    if k > 0 {
      IndexOfAt(s[1..], c, k - 1);
    }
  }

  /** substr(s, 1): everything but the first character. PHP 5 answers false
      when there is nothing left, which string contexts read as "". */
  function DropFirst(s: string): (r: string)
    ensures |s| >= 1 ==> [s[0]] + r == s
    ensures |s| <= 1 ==> r == ""
  {
    if |s| <= 1 then "" else s[1..]
  }

  /** Joining the pieces with the separator gives the string back, and no
      piece contains the separator. */
  lemma {:induction false} SplitJoin(s: string, c: char)
    ensures Join([c], Split(s, c)) == s
    ensures forall i :: 0 <= i < |Split(s, c)| ==> c !in Split(s, c)[i]
    decreases |s|
  {
    if s != [] {
      var rest := Split(s[1..], c);
      SplitJoin(s[1..], c);
      var parts := Split(s, c);
      if s[0] == c {
        assert parts == [""] + rest;
        assert parts[1..] == rest;
        assert Join([c], parts) == "" + [c] + Join([c], rest);
        assert s == [s[0]] + s[1..];
      } else {
        assert parts == [[s[0]] + rest[0]] + rest[1..];
        if |rest| == 1 {
          assert Join([c], parts) == [s[0]] + rest[0];
          assert s == [s[0]] + s[1..];
        } else {
          assert parts[1..] == rest[1..];
          calc {
            Join([c], parts);
            ([s[0]] + rest[0]) + [c] + Join([c], rest[1..]);
            [s[0]] + (rest[0] + [c] + Join([c], rest[1..]));
            [s[0]] + Join([c], rest);
            s;
          }
        }
        forall i | 0 <= i < |parts|
          ensures c !in parts[i]
        {
          if i == 0 {
            assert c !in rest[0];
          } else {
            assert parts[i] == rest[i];
          }
        }
      }
    }
  }

  /** The first piece of split(c, s) is the text before the first `c`. */
  lemma {:induction false} FirstPiece(s: string, c: char)
    ensures Split(s, c)[0] == s[..IndexOf(s, c)]
    decreases |s|
  {
    if s != [] && s[0] != c {
      FirstPiece(s[1..], c);
      assert s[..IndexOf(s, c)] == [s[0]] + s[1..][..IndexOf(s[1..], c)];
    }
  }

  /** When `s` holds a `c`, the pieces after the first are those of the text
      that follows the first `c`. */
  lemma {:induction false} LaterPieces(s: string, c: char)
    requires IndexOf(s, c) < |s|
    ensures |Split(s, c)| >= 2
    ensures Split(s, c)[1..] == Split(s[IndexOf(s, c) + 1..], c)
    decreases |s|
  {
    if s[0] != c {
      LaterPieces(s[1..], c);
      assert s[1..][IndexOf(s[1..], c) + 1..] == s[IndexOf(s, c) + 1..];
    } else {
      assert s[1..] == s[IndexOf(s, c) + 1..];
    }
  }

  /** A string without `c` splits into itself alone. */
  lemma {:induction false} SplitWithout(s: string, c: char)
    requires c !in s
    ensures Split(s, c) == [s]
    decreases |s|
  {
    if s != [] {
      SplitWithout(s[1..], c);
      assert s == [s[0]] + s[1..];
    }
  }

  /** A string splits into more than one piece exactly when it holds the
      separator. */
  lemma SplitCount(s: string, c: char)
    ensures |Split(s, c)| >= 2 <==> c in s
  {
    if c in s {
      LaterPieces(s, c);
    } else {
      SplitWithout(s, c);
    }
  }

  /* ---------------------------------------------------------------------- */
  /* The order of identifiers                                               */
  /* ---------------------------------------------------------------------- */

  /** Byte-wise lexicographic order on strings: the order ksort() gives
      equal-length digit keys and ORDER BY gives the ledger's ids. */
  predicate Less(a: string, b: string)
    decreases |a|
  {
    if |a| == 0 then |b| > 0
    else if |b| == 0 then false
    else if a[0] != b[0] then a[0] < b[0]
    else Less(a[1..], b[1..])
  }

  lemma {:induction false} LessIrreflexive(a: string)
    ensures !Less(a, a)
    decreases |a|
  {
    if |a| > 0 {
      LessIrreflexive(a[1..]);
    }
  }

  lemma {:induction false} LessTransitive(a: string, b: string, c: string)
    requires Less(a, b) && Less(b, c)
    ensures Less(a, c)
    decreases |a|
  {
    if |a| > 0 && |b| > 0 && |c| > 0 && a[0] == b[0] && b[0] == c[0] {
      LessTransitive(a[1..], b[1..], c[1..]);
    }
  }

  /** Any two different strings are ordered one way or the other. */
  lemma {:induction false} LessTotal(a: string, b: string)
    ensures a == b || Less(a, b) || Less(b, a)
    decreases |a|
  {
    if |a| > 0 && |b| > 0 && a[0] == b[0] {
      LessTotal(a[1..], b[1..]);
      if a[1..] == b[1..] {
        assert a == [a[0]] + a[1..] && b == [b[0]] + b[1..];
      }
    }
  }

  lemma LessAsymmetric(a: string, b: string)
    requires Less(a, b)
    ensures !Less(b, a)
  {
    if Less(b, a) {
      LessTransitive(a, b, a);
      LessIrreflexive(a);
    }
  }

  /** Strictly ascending, hence also free of duplicates. */
  predicate Ascending(s: seq<string>) {
    forall i, j :: 0 <= i < j < |s| ==> Less(s[i], s[j])
  }

  /** `m` comes first among the members of `s`. */
  predicate IsLeast(m: string, s: set<string>) {
    m in s && forall x :: x in s ==> x == m || Less(m, x)
  }

  /** Every non-empty finite set of strings has a least member. */
  lemma {:induction false} LeastExists(s: set<string>)
    requires s != {}
    ensures exists m :: IsLeast(m, s)
    decreases |s|
  {
    var x :| x in s;
    if s != {x} {
      var rest := s - {x};
      LeastExists(rest);
      var m :| IsLeast(m, rest);
      LessTotal(x, m);
      if Less(x, m) {
        forall y | y in s
          ensures y == x || Less(x, y)
        {
          if y != x && y != m {
            LessTransitive(x, m, y);
          }
        }
        assert IsLeast(x, s);
      } else {
        assert IsLeast(m, s);
      }
    } else {
      assert IsLeast(x, s);
    }
  }

  lemma LeastUnique(m: string, n: string, s: set<string>)
    requires IsLeast(m, s) && IsLeast(n, s)
    ensures m == n
  {
    if m != n {
      LessAsymmetric(m, n);
    }
  }

  /** The members of `s` in ascending order (SortSetSpec states it). */
  ghost function SortSet(s: set<string>): seq<string>
    decreases |s|
  {
    if s == {} then []
    else
      LeastExists(s);
      var m :| IsLeast(m, s);
      [m] + SortSet(s - {m})
  }

  /** The ascending enumeration of a set starts with its least member. */
  lemma SortSetFirst(m: string, s: set<string>)
    requires IsLeast(m, s)
    ensures SortSet(s) == [m] + SortSet(s - {m})
  {
    LeastExists(s);
    var first :| IsLeast(first, s) && SortSet(s) == [first] + SortSet(s - {first});
    LeastUnique(m, first, s);
  }

  /** SortSet lists every member of `s` once, strictly ascending. */
  lemma {:induction false} SortSetSpec(s: set<string>)
    ensures Ascending(SortSet(s))
    ensures |SortSet(s)| == |s|
    ensures forall x :: x in SortSet(s) <==> x in s
    decreases |s|
  {
    if s != {} {
      LeastExists(s);
      var m :| IsLeast(m, s);
      SortSetFirst(m, s);
      var rest := s - {m};
      SortSetSpec(rest);
      var r := SortSet(s);
      assert r == [m] + SortSet(rest);
      forall i, j | 0 <= i < j < |r|
        ensures Less(r[i], r[j])
      {
        if i == 0 {
          assert r[j] in rest;
        } else {
          assert r[i] == SortSet(rest)[i - 1] && r[j] == SortSet(rest)[j - 1];
        }
      }
    }
  }

  /** ksort() on the keys of an array, and the ledger's ORDER BY: the
      members of `s`, least first. */
  method SortedMembers(s: set<string>) returns (r: seq<string>)
    ensures r == SortSet(s)
  {
    r := [];
    var rest := s;
    while rest != {}
      invariant rest <= s
      invariant r + SortSet(rest) == SortSet(s)
      decreases |rest|
    {
      LeastExists(rest);
      var m :| IsLeast(m, rest);
      SortSetFirst(m, rest);
      r := r + [m];
      rest := rest - {m};
    }
  }

  /* ---------------------------------------------------------------------- */
  /* Digit strings: why string order is ksort()'s order for the keys          */
  /* ---------------------------------------------------------------------- */

  predicate IsDigit(ch: char) {
    '0' <= ch <= '9'
  }

  predicate AllDigits(s: string) {
    forall i :: 0 <= i < |s| ==> IsDigit(s[i])
  }

  function Pow10(n: nat): (p: nat)
    ensures p >= 1
  {
    if n == 0 then 1 else 10 * Pow10(n - 1)
  }

  /** The number a digit string denotes, as PHP reads an integer-like key. */
  function Value(s: string): int
    requires AllDigits(s)
    decreases |s|
  {
    if s == [] then 0
    else (s[0] as int - '0' as int) * Pow10(|s| - 1) + Value(s[1..])
  }

  lemma {:induction false} ValueBound(s: string)
    requires AllDigits(s)
    ensures 0 <= Value(s) < Pow10(|s|)
    decreases |s|
  {
    if s != [] {
      ValueBound(s[1..]);
      var d := s[0] as int - '0' as int;
      var p := Pow10(|s| - 1);
      MulMono(0, d, p);
      MulMono(d, 9, p);
    }
  }

  lemma MulMono(x: int, y: int, p: nat)
    requires x <= y
    ensures x * p <= y * p
  {
  }

  /** For digit strings of equal length, string order and numeric order
      agree: this is why ordering the 14-character keys as strings matches
      ksort(), which turns such keys into integers. */
  lemma {:induction false} DigitOrderIsNumericOrder(a: string, b: string)
    requires |a| == |b| && AllDigits(a) && AllDigits(b)
    ensures Less(a, b) <==> Value(a) < Value(b)
    decreases |a|
  {
    if a != [] {
      var da, db := a[0] as int - '0' as int, b[0] as int - '0' as int;
      var p := Pow10(|a| - 1);
      assert Value(a) == da * p + Value(a[1..]);
      assert Value(b) == db * p + Value(b[1..]);
      ValueBound(a[1..]);
      ValueBound(b[1..]);
      if da < db {
        assert Less(a, b);
        LeadingDigitDecides(da, db, p, Value(a[1..]), Value(b[1..]));
      } else if db < da {
        assert !Less(a, b);
        LeadingDigitDecides(db, da, p, Value(b[1..]), Value(a[1..]));
      } else {
        assert Less(a, b) == Less(a[1..], b[1..]);
        DigitOrderIsNumericOrder(a[1..], b[1..]);
      }
    }
  }

  /** A smaller leading digit gives a smaller number, whatever follows. */
  lemma LeadingDigitDecides(d: int, e: int, p: nat, x: int, y: int)
    requires d < e && x < p && 0 <= y
    ensures d * p + x < e * p + y
  {
    MulMono(d + 1, e, p);
    assert (d + 1) * p == d * p + p;
  }
}
