/** The string operations the operator takes from Go's standard library: byte-wise order and sorting,
    splitting and joining at a separator, and decimal numerals. */
module Strings {

  function Elements<T>(xs: seq<T>): set<T> {
    set x | x in xs
  }

  ghost predicate Distinct<T>(xs: seq<T>) {
    forall i, j :: 0 <= i < j < |xs| ==> xs[i] != xs[j]
  }

  // ---------- order ----------

  /** a sorts strictly before b. */
  predicate Less(a: string, b: string) {
    b != "" && (a == "" || a[0] < b[0] || (a[0] == b[0] && Less(a[1..], b[1..])))
  }

  lemma {:induction false} LessTotal(a: string, b: string)
    ensures Less(a, b) || a == b || Less(b, a)
    ensures !(Less(a, b) && Less(b, a))
    ensures !Less(a, a)
  {
    if a != "" { LessTotal(a[1..], a[1..]); }
    if a != "" && b != "" {
      LessTotal(a[1..], b[1..]);
      if a[0] == b[0] && a[1..] == b[1..] {
        assert a == [a[0]] + a[1..] && b == [b[0]] + b[1..];
      }
    }
  }

  lemma {:induction false} LessTransitive(a: string, b: string, c: string)
    requires Less(a, b) && Less(b, c)
    ensures Less(a, c)
  {
    if a != "" && a[0] == b[0] && b[0] == c[0] {
      LessTransitive(a[1..], b[1..], c[1..]);
    }
  }

  ghost predicate Sorted(xs: seq<string>) {
    forall i, j :: 0 <= i < j < |xs| ==> Less(xs[i], xs[j])
  }

  function Insert(x: string, ys: seq<string>): seq<string> {
    if ys == [] then [x]
    else if Less(x, ys[0]) then [x] + ys
    else [ys[0]] + Insert(x, ys[1..])
  }

  /** sort.Strings. */
  function Sort(xs: seq<string>): seq<string> {
    if xs == [] then [] else Insert(xs[0], Sort(xs[1..]))
  }

  lemma {:induction false} InsertElements(x: string, ys: seq<string>)
    ensures Elements(Insert(x, ys)) == {x} + Elements(ys)
  {
    if ys != [] && !Less(x, ys[0]) {
      InsertElements(x, ys[1..]);
      assert ys == [ys[0]] + ys[1..];
      assert forall z :: z in Insert(x, ys) <==> z == ys[0] || z in Insert(x, ys[1..]);
      assert forall z :: z in Insert(x, ys[1..]) <==> z in Elements(Insert(x, ys[1..]));
    }
  }

  lemma {:induction false} InsertSorted(x: string, ys: seq<string>)
    requires Sorted(ys) && x !in ys
    ensures Sorted(Insert(x, ys))
  {
    if ys != [] {
      LessTotal(x, ys[0]);
      if Less(x, ys[0]) {
        forall j | 0 < j < |ys| ensures Less(x, ys[j]) { LessTransitive(x, ys[0], ys[j]); }
      } else {
        InsertSorted(x, ys[1..]);
        InsertElements(x, ys[1..]);
        var rest := Insert(x, ys[1..]);
        forall j | 0 <= j < |rest| ensures Less(ys[0], rest[j]) {
          assert rest[j] in Elements(rest);
        }
      }
    }
  }

  lemma {:induction false} SortSorts(xs: seq<string>)
    requires Distinct(xs)
    ensures Sorted(Sort(xs)) && Elements(Sort(xs)) == Elements(xs)
  {
    if xs != [] {
      SortSorts(xs[1..]);
      assert xs == [xs[0]] + xs[1..];
      assert xs[0] !in Elements(Sort(xs[1..]));
      InsertSorted(xs[0], Sort(xs[1..]));
      InsertElements(xs[0], Sort(xs[1..]));
    }
  }

  /** A strictly sorted list is fixed by its elements. */
  lemma {:induction false} SortedUnique(xs: seq<string>, ys: seq<string>)
    requires Sorted(xs) && Sorted(ys) && Elements(xs) == Elements(ys)
    ensures xs == ys
  {
    assert xs != [] ==> xs[0] in Elements(ys);
    assert ys != [] ==> ys[0] in Elements(xs);
    if xs != [] {
      LessTotal(xs[0], ys[0]);
      assert xs[0] == ys[0];
      LessTotal(xs[0], xs[0]);
      assert Elements(xs[1..]) == Elements(xs) - {xs[0]} by {
        assert xs == [xs[0]] + xs[1..];
      }
      assert Elements(ys[1..]) == Elements(ys) - {ys[0]} by {
        assert ys == [ys[0]] + ys[1..];
      }
      SortedUnique(xs[1..], ys[1..]);
    }
  }

  /** Some duplicate-free listing of a set: the order in which a Go map range happens to visit its keys. */
  ghost function Enumerate(s: set<string>): (xs: seq<string>)
    ensures Distinct(xs) && Elements(xs) == s
  {
    if s == {} then []
    else
      var x :| x in s;
      var rest := Enumerate(s - {x});
      assert forall y :: y in rest <==> y in Elements(rest);
      assert Elements([x] + rest) == {x} + Elements(rest);
      [x] + rest
  }

  /** The sorted listing of a set (sets.List). */
  ghost function SortedList(s: set<string>): (xs: seq<string>)
    ensures Sorted(xs) && Elements(xs) == s
  {
    SortSorts(Enumerate(s));
    Sort(Enumerate(s))
  }

  /** Sorting forgets the visiting order. */
  lemma SortIsSortedList(xs: seq<string>, s: set<string>)
    requires Distinct(xs) && Elements(xs) == s
    ensures Sort(xs) == SortedList(s)
  {
    SortSorts(xs);
    SortedUnique(Sort(xs), SortedList(s));
  }

  // ---------- split and join ----------

  function Join(xs: seq<string>, sep: char): string {
    if xs == [] then "" else if |xs| == 1 then xs[0] else xs[0] + [sep] + Join(xs[1..], sep)
  }

  function Split(s: string, sep: char): (r: seq<string>)
    ensures r != []
  {
    if s == "" then [""]
    else
      var rest := Split(s[1..], sep);
      if s[0] == sep then [""] + rest else [[s[0]] + rest[0]] + rest[1..]
  }

  lemma {:induction false} SplitPieces(s: string, sep: char)
    ensures forall p :: p in Split(s, sep) ==> sep !in p
  {
    if s != "" { SplitPieces(s[1..], sep); }
  }

  lemma {:induction false} SplitHead(a: string, b: string, sep: char)
    requires sep !in a
    ensures Split(a, sep) == [a]
    ensures Split(a + [sep] + b, sep) == [a] + Split(b, sep)
  {
    if a == "" {
      assert a + [sep] + b == [sep] + b;
      assert ([sep] + b)[1..] == b;
    } else {
      SplitHead(a[1..], b, sep);
      assert (a + [sep] + b)[1..] == a[1..] + [sep] + b;
      assert a == [a[0]] + a[1..];
    }
  }

  lemma {:induction false} SplitJoin(xs: seq<string>, sep: char)
    requires xs != [] && forall x :: x in xs ==> sep !in x
    ensures Split(Join(xs, sep), sep) == xs
  {
    if |xs| == 1 {
      SplitHead(xs[0], "", sep);
    } else {
      SplitJoin(xs[1..], sep);
      SplitHead(xs[0], Join(xs[1..], sep), sep);
    }
  }

  /** Exactly which sets survive being written as one joined string and read back. */
  lemma SetSurvivesJoin(s: set<string>, sep: char)
    ensures Elements(Split(Join(SortedList(s), sep), sep)) == s
       <==> s != {} && forall x :: x in s ==> sep !in x
  {
    var xs := SortedList(s);
    var back := Split(Join(xs, sep), sep);
    assert forall x :: x in xs <==> x in Elements(xs);
    if s != {} && forall x :: x in s ==> sep !in x {
      SplitJoin(xs, sep);
    } else {
      SplitPieces(Join(xs, sep), sep);
      assert back[0] in Elements(back);
    }
  }

  // ---------- decimal numerals ----------

  function Decimal(n: nat): (s: string)
    ensures s != ""
  {
    var digit := [('0' as int + n % 10) as char];
    if n < 10 then digit else Decimal(n / 10) + digit
  }

  function Value(s: string): int {
    if s == "" then 0 else 10 * Value(s[..|s| - 1]) + (s[|s| - 1] as int - '0' as int)
  }

  lemma {:induction false} DecimalReadsBack(n: nat)
    ensures Value(Decimal(n)) == n
  {
    var digit := ('0' as int + n % 10) as char;
    if n >= 10 {
      DecimalReadsBack(n / 10);
      assert (Decimal(n / 10) + [digit])[..|Decimal(n / 10)|] == Decimal(n / 10);
    } else {
      assert [digit][..0] == "";
    }
  }
}
