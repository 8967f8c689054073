/** The string operations the Go programs take from the standard library:
    splitting and joining on a separator, printing an integer with %d, and
    strconv.ParseInt(s, 10, 32) with its error discarded. */
module Text {

  const MAX_INT32: int := 0x7fff_ffff
  const MIN_INT32: int := -0x8000_0000
  const MAX_UINT32: int := 0xffff_ffff

  predicate IsInt32(n: int) {
    MIN_INT32 <= n <= MAX_INT32
  }

  /** strings.Split(s, sep) for a one-character separator. */
  function Split(s: string, sep: char): (parts: seq<string>)
    ensures |parts| >= 1
    ensures forall p | p in parts :: sep !in p
  {
    if s == [] then [[]]
    else
      var rest := Split(s[1..], sep);
      if s[0] == sep then [[]] + rest
      else [[s[0]] + rest[0]] + rest[1..]
  }

  /** strings.Join(parts, sep) for a one-character separator. */
  function Join(parts: seq<string>, sep: char): string {
    if |parts| == 0 then []
    else if |parts| == 1 then parts[0]
    else parts[0] + [sep] + Join(parts[1..], sep)
  }

  lemma {:induction false} SplitAtSeparator(p: string, rest: string, sep: char)
    requires sep !in p
    ensures Split(p, sep) == [p]
    ensures Split(p + [sep] + rest, sep) == [p] + Split(rest, sep)
  {
    if p == [] {
      assert p + [sep] + rest == [sep] + rest;
    } else {
      SplitAtSeparator(p[1..], rest, sep);
      assert p == [p[0]] + p[1..];
      assert (p + [sep] + rest)[1..] == p[1..] + [sep] + rest;
    }
  }

  /** Splitting undoes joining when no part holds the separator. */
  lemma {:induction false} SplitOfJoin(parts: seq<string>, sep: char)
    requires |parts| >= 1
    requires forall p | p in parts :: sep !in p
    ensures Split(Join(parts, sep), sep) == parts
  {
    if |parts| == 1 {
      SplitAtSeparator(parts[0], [], sep);
    } else {
      SplitOfJoin(parts[1..], sep);
      SplitAtSeparator(parts[0], Join(parts[1..], sep), sep);
    }
  }

  /** Splitting loses nothing: joining the parts restores the string. */
  lemma {:induction false} JoinOfSplit(s: string, sep: char)
    ensures Join(Split(s, sep), sep) == s
  {
    if s != [] {
      JoinOfSplit(s[1..], sep);
      var rest := Split(s[1..], sep);
      if s[0] == sep {
        assert ([[]] + rest)[1..] == rest;
        assert s == [] + [sep] + s[1..];
      } else {
        var parts := [[s[0]] + rest[0]] + rest[1..];
        assert s == [s[0]] + s[1..];
        if |rest| > 1 {
          assert parts[1..] == rest[1..];
          assert Join(parts, sep) == [s[0]] + (rest[0] + [sep] + Join(rest[1..], sep));
        }
      }
    }
  }

  /** Splitting two strings joined by a separator splits each of them. */
  lemma {:induction false} SplitOfConcat(a: string, b: string, sep: char)
    ensures Split(a + [sep] + b, sep) == Split(a, sep) + Split(b, sep)
  {
    if a == [] {
      assert a + [sep] + b == [sep] + b;
    } else {
      SplitOfConcat(a[1..], b, sep);
      var s := a + [sep] + b;
      assert s[1..] == a[1..] + [sep] + b && s[0] == a[0];
      PartsOfConcat(s, a, Split(b, sep), sep);
    }
  }

  lemma PartsOfConcat(s: string, a: string, tail: seq<string>, sep: char)
    requires s != [] && a != [] && s[0] == a[0] && Split(s[1..], sep) == Split(a[1..], sep) + tail
    ensures Split(s, sep) == Split(a, sep) + tail
  {
    SplitStep(s, sep);
    SplitStep(a, sep);
    PushedOnto(a[0], Split(a[1..], sep), tail, sep);
  }

  /** A character in front of split parts: a separator opens a new part, any
      other character extends the first one. */
  function Push(c: char, parts: seq<string>, sep: char): seq<string>
    requires parts != []
  {
    if c == sep then [[]] + parts else [[c] + parts[0]] + parts[1..]
  }

  lemma SplitStep(s: string, sep: char)
    requires s != []
    ensures Split(s, sep) == Push(s[0], Split(s[1..], sep), sep)
  {}

  lemma PushedOnto(c: char, parts: seq<string>, tail: seq<string>, sep: char)
    requires parts != []
    ensures Push(c, parts + tail, sep) == Push(c, parts, sep) + tail
  {}

  /** There is a second part exactly when there is a separator. */
  lemma {:induction false} SecondPartIffSeparator(s: string, sep: char)
    ensures |Split(s, sep)| >= 2 <==> sep in s
  {
    if s != [] {
      SecondPartIffSeparator(s[1..], sep);
      assert s == [s[0]] + s[1..];
    }
  }

  predicate IsDigit(c: char) {
    '0' <= c <= '9'
  }

  function DigitChar(d: nat): (c: char)
    requires d < 10
    ensures IsDigit(c) && DigitValue(c) == d
  {
    '0' + d as char
  }

  function DigitValue(c: char): nat
    requires IsDigit(c)
  {
    (c - '0') as nat
  }

  /** Decimal digits without leading zeros. */
  function Digits(n: nat): (s: string)
    ensures |s| >= 1
    ensures forall c | c in s :: IsDigit(c)
  {
    if n < 10 then [DigitChar(n)] else Digits(n / 10) + [DigitChar(n % 10)]
  }

  /** fmt.Sprintf("%d", n). */
  function Itoa(n: int): string {
    if n < 0 then "-" + Digits(-n) else Digits(n)
  }

  datatype Scan = Value(n: nat) | SyntaxError | RangeError

  /** The digit loop of strconv.ParseUint with bitSize 32: the first bad
      character or the first overflow decides. */
  function ScanUint(s: string, acc: nat): (r: Scan)
    requires acc <= MAX_UINT32
    ensures r.Value? ==> r.n <= MAX_UINT32
  {
    if s == [] then Value(acc)
    else if !IsDigit(s[0]) then SyntaxError
    else
      var n := acc * 10 + DigitValue(s[0]);
      if n > MAX_UINT32 then RangeError else ScanUint(s[1..], n)
  }

  /** id, _ := strconv.ParseInt(s, 10, 32): a syntax error yields 0, an
      out-of-range number the nearest bound. */
  function ParseInt32(s: string): (n: int)
    ensures IsInt32(n)
  {
    if s == [] then 0
    else
      var signed := s[0] == '-' || s[0] == '+';
      var negative := s[0] == '-';
      var body := if signed then s[1..] else s;
      if body == [] then 0
      else
        match ScanUint(body, 0)
        case SyntaxError => 0
        case RangeError => if negative then MIN_INT32 else MAX_INT32
        case Value(n) =>
          var un: int := n;
          if !negative && un > MAX_INT32 then MAX_INT32
          else if negative && un > -MIN_INT32 then MIN_INT32
          else if negative then -un
          else un
  }

  lemma {:induction false} ScanOfDigits(n: nat, tail: string)
    requires n <= MAX_UINT32
    ensures ScanUint(Digits(n) + tail, 0) == ScanUint(tail, n)
  {
    if n < 10 {
      assert (Digits(n) + tail)[1..] == tail;
    } else {
      var d := DigitChar(n % 10);
      ScanOfDigits(n / 10, [d] + tail);
      assert Digits(n) + tail == Digits(n / 10) + ([d] + tail);
      assert ([d] + tail)[1..] == tail;
    }
  }

  /** %d followed by ParseInt is the identity on 32-bit integers. */
  lemma ParseOfPrint(n: int)
    requires IsInt32(n)
    ensures ParseInt32(Itoa(n)) == n
  {
    var m := if n < 0 then -n else n;
    ScanOfDigits(m, []);
    assert Digits(m) + [] == Digits(m);
    assert IsDigit(Digits(m)[0]);
    if n < 0 {
      assert Itoa(n)[1..] == Digits(m);
    }
  }

  lemma {:induction false} ScanOverflows(n: nat, tail: string)
    requires n > MAX_UINT32
    ensures ScanUint(Digits(n) + tail, 0) == RangeError
  {
    var d := DigitChar(n % 10);
    assert Digits(n) + tail == Digits(n / 10) + ([d] + tail);
    if n / 10 > MAX_UINT32 {
      ScanOverflows(n / 10, [d] + tail);
    } else {
      ScanOfDigits(n / 10, [d] + tail);
    }
  }

  /** A number outside the 32-bit range is read as the nearest bound. */
  lemma ParseClamps(n: int)
    ensures n > MAX_INT32 ==> ParseInt32(Itoa(n)) == 0x7fff_ffff
    ensures n < MIN_INT32 ==> ParseInt32(Itoa(n)) == -0x8000_0000
  {
    var m := if n < 0 then -n else n;
    if m <= MAX_UINT32 { ScanOfDigits(m, []); } else { ScanOverflows(m, []); }
    assert Digits(m) + [] == Digits(m);
    assert IsDigit(Digits(m)[0]);
    if n < 0 {
      assert Itoa(n)[1..] == Digits(m);
    }
  }

  /** What is not a number is read as 0: nothing at all, a sign alone, and any
      character that is no digit, first or after digits that fit. */
  lemma ParseOfJunk(n: nat, c: char, tail: string)
    requires n <= MAX_UINT32 && !IsDigit(c)
    ensures ParseInt32("") == ParseInt32("-") == ParseInt32("+") == 0
    ensures c != '-' && c != '+' ==> ParseInt32([c] + tail) == 0
    ensures ParseInt32(Digits(n) + [c] + tail) == 0
  {
    assert IsDigit(Digits(n)[0]) && (Digits(n) + [c] + tail)[0] == Digits(n)[0];
    ScanOfDigits(n, [c] + tail);
    assert Digits(n) + [c] + tail == Digits(n) + ([c] + tail);
  }

  /** Printed integers hold neither of the separators of the member format. */
  lemma PrintHasNoSeparators(n: int)
    ensures ',' !in Itoa(n) && ':' !in Itoa(n)
  {
    var m := if n < 0 then -n else n;
    assert !IsDigit(',') && !IsDigit(':');
    assert ',' !in Digits(m) && ':' !in Digits(m);
  }
}
