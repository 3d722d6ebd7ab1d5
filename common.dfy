/** Shared vocabulary: fixed-width unsigned integers, Option, decimal text
    (std::to_string on unsigned values) and the ascending order in which
    std::set and std::map are walked. */
module Common {

  type uint8 = x: int | 0 <= x < 0x100
  type uint16 = x: int | 0 <= x < 0x1_0000
  type uint32 = x: int | 0 <= x < 0x1_0000_0000
  type uint64 = x: int | 0 <= x < 0x1_0000_0000_0000_0000

  const TWO_POW_32: int := 0x1_0000_0000

  datatype Option<T> = None | Some(value: T)

  // ---------------------------------------------------------------------
  // Decimal text (std::to_string of an unsigned value)
  // ---------------------------------------------------------------------

  predicate IsDigit(c: char) { '0' <= c <= '9' }

  predicate AllDigits(s: string) { forall i :: 0 <= i < |s| ==> IsDigit(s[i]) }

  function DigitChar(d: nat): (c: char)
    requires d < 10
    ensures IsDigit(c) && (c as int) - ('0' as int) == d
  {
    (('0' as int) + d) as char
  }

  /** Decimal rendering without leading zeros, "0" for zero. */
  function Decimal(n: nat): (s: string)
    ensures |s| > 0 && AllDigits(s)
    decreases n
  {
    if n < 10 then [DigitChar(n)] else Decimal(n / 10) + [DigitChar(n % 10)]
  }

  /** The reference reading of a digit string, most significant digit first. */
  function DecimalValue(s: string): nat
    requires AllDigits(s)
    decreases |s|
  {
    if s == [] then 0
    else DecimalValue(s[..|s| - 1]) * 10 + ((s[|s| - 1] as int) - ('0' as int))
  }

  lemma {:induction false} DecimalRoundTrip(n: nat)
    ensures DecimalValue(Decimal(n)) == n
    decreases n
  {
    var s := Decimal(n);
    if n >= 10 {
      DecimalRoundTrip(n / 10);
      assert s[..|s| - 1] == Decimal(n / 10);
    }
  }

  /** Decimal text never holds a separator character. */
  lemma DecimalHasNo(n: nat, c: char)
    requires !IsDigit(c)
    ensures c !in Decimal(n)
  {
  }

  // ---------------------------------------------------------------------
  // Separators: the first occurrence of a character
  // ---------------------------------------------------------------------

  function IndexOf(s: string, c: char): (k: nat)
    ensures k <= |s|
    ensures k < |s| ==> s[k] == c
    ensures forall i :: 0 <= i < k ==> s[i] != c
    decreases |s|
  {
    if s == [] then 0 else if s[0] == c then 0 else 1 + IndexOf(s[1..], c)
  }

  lemma {:induction false} IndexOfAfterDigits(d: string, c: char, rest: string)
    requires AllDigits(d) && !IsDigit(c)
    ensures IndexOf(d + [c] + rest, c) == |d|
    decreases |d|
  {
    if d != [] {
      assert (d + [c] + rest)[1..] == d[1..] + [c] + rest;
      IndexOfAfterDigits(d[1..], c, rest);
    }
  }

  // ---------------------------------------------------------------------
  // Ascending order of a finite set of integers
  // ---------------------------------------------------------------------

  predicate StrictlyIncreasing(s: seq<int>)
  {
    forall i, j :: 0 <= i < j < |s| ==> s[i] < s[j]
  }

  predicate IsLeast(m: int, s: set<int>)
  {
    m in s && forall x :: x in s ==> m <= x
  }

  lemma LeastExists(s: set<int>) returns (m: int)
    requires s != {}
    ensures IsLeast(m, s)
    decreases |s|
  {
    if forall y :: y !in s {
      assert false;
    }
    var x :| x in s;
    if s == {x} {
      m := x;
    } else {
      var m' := LeastExists(s - {x});
      m := if x < m' then x else m';
      forall y | y in s ensures m <= y {
        if y != x { assert y in s - {x}; }
      }
    }
  }

  lemma HasLeast(s: set<int>)
    requires s != {}
    ensures exists m :: IsLeast(m, s)
  {
    var m := LeastExists(s);
  }

  ghost function Least(s: set<int>): (m: int)
    requires s != {}
    ensures IsLeast(m, s)
  {
    HasLeast(s);
    var m :| IsLeast(m, s); m
  }

  lemma LeastUnique(m: int, s: set<int>)
    requires IsLeast(m, s)
    ensures Least(s) == m
  {
  }

  /** The elements of a finite set in ascending order: the order in which
      std::set and std::map visit their elements. */
  ghost function Ascending(s: set<int>): (r: seq<int>)
    decreases |s|
  {
    if s == {} then [] else [Least(s)] + Ascending(s - {Least(s)})
  }

  lemma {:induction false} AscendingSpec(s: set<int>)
    ensures StrictlyIncreasing(Ascending(s))
    ensures |Ascending(s)| == |s|
    ensures forall x :: x in Ascending(s) <==> x in s
    decreases |s|
  {
    if s != {} {
      var m := Least(s);
      AscendingSpec(s - {m});
      var r := Ascending(s);
      assert r == [m] + Ascending(s - {m});
      forall i, j | 0 <= i < j < |r| ensures r[i] < r[j] {
        if i > 0 {
          assert r[i] == Ascending(s - {m})[i - 1];
        }
        assert r[j] == Ascending(s - {m})[j - 1];
        assert r[j] in s - {m};
      }
    }
  }

  /** Walks a finite set in ascending order, smallest element first. */
  method AscendingOf(s: set<int>) returns (r: seq<int>)
    ensures r == Ascending(s)
  {
    r := [];
    var rest := s;
    while rest != {}
      invariant rest <= s
      invariant r + Ascending(rest) == Ascending(s)
      decreases |rest|
    {
      HasLeast(rest);
      var m :| m in rest && forall x :: x in rest ==> m <= x;
      LeastUnique(m, rest);
      r := r + [m];
      rest := rest - {m};
    }
  }

  // ---------------------------------------------------------------------
  // Lists joined by separators
  // ---------------------------------------------------------------------

  /** Each value in decimal followed by ':' (the filter pid string). */
  function Terminated(ns: seq<nat>, sep: char): string
  {
    if ns == [] then [] else Decimal(ns[0]) + [sep] + Terminated(ns[1..], sep)
  }

  /** Reads back a list of decimal values each followed by the separator. */
  function ReadTerminated(s: string, sep: char): seq<nat>
    decreases |s|
  {
    var k := IndexOf(s, sep);
    if k == |s| || !AllDigits(s[..k]) then []
    else [DecimalValue(s[..k])] + ReadTerminated(s[k + 1..], sep)
  }

  lemma {:induction false} TerminatedRoundTrip(ns: seq<nat>, sep: char)
    requires !IsDigit(sep)
    ensures ReadTerminated(Terminated(ns, sep), sep) == ns
    decreases |ns|
  {
    if ns != [] {
      var d := Decimal(ns[0]);
      var rest := Terminated(ns[1..], sep);
      var s := Terminated(ns, sep);
      assert s == d + [sep] + rest;
      IndexOfAfterDigits(d, sep, rest);
      assert s[..|d|] == d;
      assert s[|d| + 1..] == rest;
      DecimalRoundTrip(ns[0]);
      TerminatedRoundTrip(ns[1..], sep);
    }
  }

  /** Appending one value appends its decimal and the separator. */
  lemma {:induction false} TerminatedSnoc(ns: seq<nat>, n: nat, sep: char)
    ensures Terminated(ns + [n], sep) == Terminated(ns, sep) + Decimal(n) + [sep]
    decreases |ns|
  {
    if ns == [] {
      assert ns + [n] == [n];
    } else {
      assert (ns + [n])[0] == ns[0];
      assert (ns + [n])[1..] == ns[1..] + [n];
      TerminatedSnoc(ns[1..], n, sep);
    }
  }

  /** Appending one value appends the separator and its decimal. */
  lemma PrefixedSnoc(ns: seq<nat>, n: nat, sep: char)
    ensures Prefixed(ns + [n], sep) == Prefixed(ns, sep) + [sep] + Decimal(n)
  {
    PrefixedAppend(ns, [n], sep);
    assert Prefixed([n], sep) == [sep] + Decimal(n) + Prefixed([], sep);
  }

  /** Values in decimal separated by the separator, none after the last. */
  function Separated(ns: seq<nat>, sep: char): string
  {
    if ns == [] then [] else Decimal(ns[0]) + Prefixed(ns[1..], sep)
  }

  /** Each value preceded by the separator. */
  function Prefixed(ns: seq<nat>, sep: char): string
  {
    if ns == [] then [] else [sep] + Decimal(ns[0]) + Prefixed(ns[1..], sep)
  }

  lemma {:induction false} SeparatedRoundTrip(ns: seq<nat>, sep: char)
    requires ns != [] && !IsDigit(sep)
    ensures ReadTerminated(Separated(ns, sep) + [sep], sep) == ns
    decreases |ns|
  {
    PrefixedTerminated(ns[1..], sep);
    assert Separated(ns, sep) + [sep] == Terminated(ns, sep) by {
      assert Separated(ns, sep) + [sep] == Decimal(ns[0]) + (Prefixed(ns[1..], sep) + [sep]);
    }
    TerminatedRoundTrip(ns, sep);
  }

  lemma {:induction false} PrefixedTerminated(ns: seq<nat>, sep: char)
    ensures Prefixed(ns, sep) + [sep] == [sep] + Terminated(ns, sep)
    decreases |ns|
  {
    if ns != [] {
      PrefixedTerminated(ns[1..], sep);
      calc {
        Prefixed(ns, sep) + [sep];
        [sep] + Decimal(ns[0]) + (Prefixed(ns[1..], sep) + [sep]);
        [sep] + Decimal(ns[0]) + ([sep] + Terminated(ns[1..], sep));
        [sep] + Terminated(ns, sep);
      }
    }
  }

  lemma {:induction false} PrefixedAppend(a: seq<nat>, b: seq<nat>, sep: char)
    ensures Prefixed(a + b, sep) == Prefixed(a, sep) + Prefixed(b, sep)
    decreases |a|
  {
    if a == [] {
      assert a + b == b;
    } else {
      assert (a + b)[0] == a[0];
      assert (a + b)[1..] == a[1..] + b;
      PrefixedAppend(a[1..], b, sep);
    }
  }

  /** Separating a longer list continues the first part with each further
      value preceded by the separator. */
  lemma SeparatedAppend(a: seq<nat>, b: seq<nat>, sep: char)
    requires a != []
    ensures Separated(a + b, sep) == Separated(a, sep) + Prefixed(b, sep)
  {
    assert (a + b)[0] == a[0];
    assert (a + b)[1..] == a[1..] + b;
    PrefixedAppend(a[1..], b, sep);
  }

  /** Appending one value to a non-empty list adds the separator and its decimal. */
  lemma SeparatedSnoc(ns: seq<nat>, n: nat, sep: char)
    requires ns != []
    ensures Separated(ns + [n], sep) == Separated(ns, sep) + [sep] + Decimal(n)
  {
    SeparatedAppend(ns, [n], sep);
    assert Prefixed([n], sep) == [sep] + Decimal(n) + Prefixed([], sep);
  }

  /** Three values separated by the separator. */
  lemma SeparatedThree(a: nat, b: nat, c: nat, sep: char)
    ensures Separated([a, b, c], sep) == Decimal(a) + [sep] + Decimal(b) + [sep] + Decimal(c)
  {
    assert [a] + [b] == [a, b] && [a, b] + [c] == [a, b, c];
    assert Separated([a], sep) == Decimal(a) + Prefixed([], sep);
    SeparatedSnoc([a], b, sep);
    SeparatedSnoc([a, b], c, sep);
  }

  /** Strings joined by a separator character, none after the last. */
  function Joined(parts: seq<string>, sep: char): string
  {
    if parts == [] then []
    else if |parts| == 1 then parts[0]
    else parts[0] + [sep] + Joined(parts[1..], sep)
  }

  function CountOf(s: string, c: char): nat
  {
    if s == [] then 0 else (if s[0] == c then 1 else 0) + CountOf(s[1..], c)
  }

  lemma CountOfAppend(a: string, b: string, c: char)
    ensures CountOf(a + b, c) == CountOf(a, c) + CountOf(b, c)
  {
    if a != [] {
      assert (a + b)[0] == a[0];
      assert (a + b)[1..] == a[1..] + b;
      CountOfAppend(a[1..], b, c);
    } else {
      assert a + b == b;
    }
  }

  /** Joining n parts that hold no separator puts exactly n - 1 separators in. */
  lemma {:induction false} JoinedSeparators(parts: seq<string>, sep: char)
    requires parts != []
    requires forall i :: 0 <= i < |parts| ==> sep !in parts[i]
    ensures CountOf(Joined(parts, sep), sep) == |parts| - 1
    decreases |parts|
  {
    NoSepCount(parts[0], sep);
    if |parts| > 1 {
      JoinedSeparators(parts[1..], sep);
      CountOfAppend(parts[0], [sep], sep);
      CountOfAppend(parts[0] + [sep], Joined(parts[1..], sep), sep);
    }
  }

  /** The joined string ends with the last part, so when that part is not
      empty and holds no separator, there is no trailing separator. */
  lemma {:induction false} JoinedEndsWithLast(parts: seq<string>, sep: char)
    requires parts != []
    ensures |Joined(parts, sep)| >= |parts[|parts| - 1]|
    ensures Joined(parts, sep)[|Joined(parts, sep)| - |parts[|parts| - 1]|..] == parts[|parts| - 1]
    decreases |parts|
  {
    if |parts| > 1 {
      JoinedEndsWithLast(parts[1..], sep);
      var t := Joined(parts[1..], sep);
      var last := parts[|parts| - 1];
      assert parts[1..][|parts[1..]| - 1] == last;
      var j := Joined(parts, sep);
      assert j == (parts[0] + [sep]) + t;
      assert j[|j| - |last|..] == t[|t| - |last|..];
    }
  }

  lemma NoTrailingSeparator(parts: seq<string>, sep: char)
    requires parts != [] && parts[|parts| - 1] != []
    requires sep !in parts[|parts| - 1]
    ensures var j := Joined(parts, sep); j != [] && j[|j| - 1] != sep
  {
    JoinedEndsWithLast(parts, sep);
    var j := Joined(parts, sep);
    var last := parts[|parts| - 1];
    assert j[|j| - 1] == j[|j| - |last|..][|last| - 1];
  }

  lemma NoSepCount(s: string, c: char)
    requires c !in s
    ensures CountOf(s, c) == 0
  {
    if s != [] {
      assert c !in s[1..];
    }
  }
}
