/** The parts of Go's strings and strconv packages the other modules print and read with. */
module Text {

  datatype Option<+T> = None | Some(value: T)

  /** strings.Join with a one-character separator. */
  function Join(parts: seq<string>, sep: char): string {
    if |parts| == 0 then ""
    else if |parts| == 1 then parts[0]
    else parts[0] + [sep] + Join(parts[1..], sep)
  }

  /** The length of the longest prefix without `sep`. */
  function Until(s: string, sep: char): (n: nat)
    ensures n <= |s|
    ensures sep !in s[..n]
    ensures n < |s| ==> s[n] == sep
  {
    if s == "" || s[0] == sep then 0 else 1 + Until(s[1..], sep)
  }

  /** strings.Split with a one-character separator. */
  function Split(s: string, sep: char): (parts: seq<string>)
    ensures |parts| >= 1
    decreases |s|
  {
    var n := Until(s, sep);
    if n == |s| then [s] else [s[..n]] + Split(s[n + 1..], sep)
  }

  lemma {:induction false} UntilOf(head: string, sep: char, tail: string)
    requires sep !in head && (tail == "" || tail[0] == sep)
    ensures Until(head + tail, sep) == |head|
  {
    if head != "" {
      assert (head + tail)[1..] == head[1..] + tail;
      UntilOf(head[1..], sep, tail);
    }
  }

  /** A separator anywhere splits what is before it from what is after, */
  lemma {:induction false} SplitAt(a: string, sep: char, b: string)
    ensures Split(a + [sep] + b, sep) == Split(a, sep) + Split(b, sep)
    decreases |a|
  {
    var n := Until(a, sep);
    if n == |a| {
      assert a[..n] == a;
      FirstPart(a, sep, b);
    } else {
      var head, rest := Cut(a, n);
      SplitAt(rest, sep, b);
      SplitPast(head, sep, rest, b);
    }
  }

  lemma {:induction false} Cut(s: string, n: nat) returns (head: string, rest: string)
    requires n < |s|
    ensures s == head + [s[n]] + rest && head == s[..n] && |rest| < |s|
  {
    head, rest := s[..n], s[n + 1..];
  }

  lemma {:induction false} SplitPast(head: string, sep: char, rest: string, b: string)
    requires sep !in head && Split(rest + [sep] + b, sep) == Split(rest, sep) + Split(b, sep)
    ensures Split(head + [sep] + rest + [sep] + b, sep) == Split(head + [sep] + rest, sep) + Split(b, sep)
  {
    FirstPart(head, sep, rest + [sep] + b);
    FirstPart(head, sep, rest);
    Regroup(head + [sep], rest, [sep], b);
    RegroupParts([head], Split(rest, sep), Split(b, sep));
  }

  lemma {:induction false} Regroup(a: string, b: string, c: string, d: string)
    ensures a + b + c + d == a + (b + c + d)
  {
  }

  lemma {:induction false} RegroupParts(a: seq<string>, b: seq<string>, c: seq<string>)
    ensures a + b + c == a + (b + c)
  {
  }

  lemma {:induction false} FirstPart(w: string, sep: char, rest: string)
    requires sep !in w
    ensures Split(w + [sep] + rest, sep) == [w] + Split(rest, sep)
  {
    assert w + [sep] + rest == w + ([sep] + rest);
    UntilOf(w, sep, [sep] + rest);
    assert (w + [sep] + rest)[..|w|] == w && (w + [sep] + rest)[|w| + 1..] == rest;
  }

  /** and text without one is a single part. */
  lemma {:induction false} SplitWhole(s: string, sep: char)
    requires sep !in s
    ensures Split(s, sep) == [s]
  {
    UntilOf(s, sep, "");
    assert s + "" == s;
  }

  /** Split undoes Join when no part contains the separator. */
  lemma {:induction false} SplitJoin(parts: seq<string>, sep: char)
    requires |parts| >= 1
    requires forall i :: 0 <= i < |parts| ==> sep !in parts[i]
    ensures Split(Join(parts, sep), sep) == parts
  {
    if |parts| == 1 {
      UntilOf(parts[0], sep, "");
      assert parts[0] + "" == parts[0];
    } else {
      var rest := Join(parts[1..], sep);
      assert Join(parts, sep) == parts[0] + ([sep] + rest);
      UntilOf(parts[0], sep, [sep] + rest);
      assert Join(parts, sep)[..|parts[0]|] == parts[0];
      assert Join(parts, sep)[|parts[0]| + 1..] == rest;
      SplitJoin(parts[1..], sep);
    }
  }

  // ---------- decimal numbers ----------

  function Digit(d: nat): char
    requires d < 10
  {
    "0123456789"[d]
  }

  predicate IsDigit(c: char) { '0' <= c <= '9' }

  function DigitValue(c: char): nat
    requires IsDigit(c)
  {
    c as int - '0' as int
  }

  /** %d of a natural number. */
  function Decimal(n: nat): (s: string)
    ensures |s| > 0
    ensures forall i :: 0 <= i < |s| ==> IsDigit(s[i])
  {
    if n < 10 then [Digit(n)] else Decimal(n / 10) + [Digit(n % 10)]
  }

  /** Base ten, the last digit last. */
  lemma {:induction false} DecimalDigits(n: nat, d: nat)
    requires d < 10
    ensures Decimal(d) == ["0123456789"[d]]
    ensures n > 0 ==> Decimal(10 * n + d) == Decimal(n) + ["0123456789"[d]]
  {
    assert (10 * n + d) / 10 == n && (10 * n + d) % 10 == d;
  }

  predicate AllDigits(s: string) {
    forall i :: 0 <= i < |s| ==> IsDigit(s[i])
  }

  function DecimalValue(s: string): (n: int)
    requires AllDigits(s)
    ensures n >= 0
  {
    if s == "" then 0 else 10 * DecimalValue(s[..|s| - 1]) + DigitValue(s[|s| - 1])
  }

  lemma {:induction false} DecimalRoundTrip(n: nat)
    ensures DecimalValue(Decimal(n)) == n
  {
    if n < 10 {
      assert Decimal(n)[..|Decimal(n)| - 1] == "";
    } else {
      DecimalRoundTrip(n / 10);
      assert Decimal(n)[..|Decimal(n)| - 1] == Decimal(n / 10);
    }
  }

  /** strconv.Itoa. */
  function Itoa(n: int): string {
    if n < 0 then "-" + Decimal(-n) else Decimal(n)
  }

  /** strconv.Atoi on what Itoa prints: a decimal number, perhaps after a minus sign. */
  function Atoi(s: string): Option<int> {
    if s == "" then None
    else if s[0] == '-' then
      if |s| > 1 && AllDigits(s[1..]) then Some(-DecimalValue(s[1..])) else None
    else if AllDigits(s) then Some(DecimalValue(s)) else None
  }

  lemma {:induction false} AtoiItoa(n: int)
    ensures Atoi(Itoa(n)) == Some(n)
  {
    var digits := Decimal(if n < 0 then -n else n);
    DecimalRoundTrip(if n < 0 then -n else n);
    if n < 0 {
      assert ("-" + digits)[0] == '-' && ("-" + digits)[1..] == digits;
    } else {
      assert IsDigit(digits[0]) && digits[0] != '-';
    }
  }

  // ---------- counting separators ----------

  function Count(s: string, sep: char): nat {
    if s == "" then 0 else (if s[0] == sep then 1 else 0) + Count(s[1..], sep)
  }

  function CountAll(parts: seq<string>, sep: char): nat {
    if parts == [] then 0 else Count(parts[0], sep) + CountAll(parts[1..], sep)
  }

  lemma {:induction false} CountConcat(a: string, b: string, sep: char)
    ensures Count(a + b, sep) == Count(a, sep) + Count(b, sep)
  {
    if a == "" {
      assert a + b == b;
    } else {
      assert (a + b)[1..] == a[1..] + b;
      CountConcat(a[1..], b, sep);
    }
  }

  lemma {:induction false} CountNone(s: string, sep: char)
    ensures Count(s, sep) == 0 <==> sep !in s
  {
    if s != "" {
      CountNone(s[1..], sep);
      assert s == [s[0]] + s[1..];
    }
  }

  lemma {:induction false} CountAllNone(parts: seq<string>, sep: char)
    ensures CountAll(parts, sep) == 0 <==> forall i :: 0 <= i < |parts| ==> sep !in parts[i]
  {
    if parts != [] {
      CountNone(parts[0], sep);
      CountAllNone(parts[1..], sep);
      assert forall i :: 0 < i < |parts| ==> parts[i] == parts[1..][i - 1];
      assert forall i :: 0 <= i < |parts[1..]| ==> parts[1..][i] == parts[i + 1];
    }
  }

  lemma {:induction false} CountJoin(parts: seq<string>, sep: char)
    requires |parts| >= 1
    ensures Count(Join(parts, sep), sep) == |parts| - 1 + CountAll(parts, sep)
  {
    if |parts| > 1 {
      CountJoin(parts[1..], sep);
      assert Join(parts, sep) == parts[0] + ([sep] + Join(parts[1..], sep));
      CountConcat(parts[0], [sep] + Join(parts[1..], sep), sep);
      assert ([sep] + Join(parts[1..], sep))[1..] == Join(parts[1..], sep);
    }
  }

  lemma {:induction false} SplitCount(s: string, sep: char)
    ensures |Split(s, sep)| == 1 + Count(s, sep)
    decreases |s|
  {
    var n := Until(s, sep);
    CountNone(s[..n], sep);
    if n == |s| {
      assert s[..n] == s;
    } else {
      SplitCount(s[n + 1..], sep);
      assert s == s[..n] + s[n..];
      CountConcat(s[..n], s[n..], sep);
      assert s[n..][1..] == s[n + 1..];
    }
  }

  /** Splitting a join gives the parts back exactly when it gives as many, which is
      exactly when no part holds the separator. */
  lemma {:induction false} SplitJoinIff(parts: seq<string>, sep: char)
    requires |parts| >= 1
    ensures |Split(Join(parts, sep), sep)| == |parts| <==> forall i :: 0 <= i < |parts| ==> sep !in parts[i]
  {
    SplitCount(Join(parts, sep), sep);
    CountJoin(parts, sep);
    CountAllNone(parts, sep);
  }
}
