/** Strings as the Go standard library cuts, splits and scans them, and decimal numbers as
    PostgreSQL prints them. A string is a sequence of ASCII characters. */
module Text {

  datatype Option<+T> = None | Some(value: T)

  /** strings.Split on one character: the pieces between its occurrences, at least one. */
  function Split(s: string, c: char): (r: seq<string>)
    ensures |r| >= 1
  {
    if s == "" then [""]
    else
      var r := Split(s[1..], c);
      if s[0] == c then [""] + r else Prepend(s[0], r)
  }

  /** The pieces r with one more character at the start of the first. */
  function Prepend(h: char, r: seq<string>): (x: seq<string>)
    requires |r| >= 1
    ensures |x| == |r|
  {
    [[h] + r[0]] + r[1..]
  }

  /** Every element of ls, each followed by c. */
  function Terminated(ls: seq<string>, c: char): string {
    if ls == [] then "" else ls[0] + [c] + Terminated(ls[1..], c)
  }

  /** strings.Cut on one character. */
  function Cut(s: string, c: char): (r: Option<(string, string)>)
    ensures r.Some? ==> s == r.value.0 + [c] + r.value.1 && c !in r.value.0
    ensures r.None? ==> c !in s
  {
    if s == "" then None
    else if s[0] == c then Some(("", s[1..]))
    else match Cut(s[1..], c)
      case None => None
      case Some(p) =>
        assert s == [s[0]] + s[1..];
        Some(([s[0]] + p.0, p.1))
  }

  /** The first occurrence is where the cut is made. */
  lemma {:induction false} CutAt(s: string, a: string, b: string, c: char)
    requires c !in a && s == a + ([c] + b)
    ensures Cut(s, c) == Some((a, b))
    decreases |a|
  {
    if a == "" {
      assert s[1..] == b;
    } else {
      assert s[1..] == a[1..] + ([c] + b) && s[0] == a[0];
      CutAt(s[1..], a[1..], b, c);
      assert [a[0]] + a[1..] == a;
    }
  }

  /** strings.CutPrefix. */
  function CutPrefix(s: string, p: string): (r: Option<string>)
    ensures r.Some? <==> p <= s
    ensures r.Some? ==> s == p + r.value
  {
    if p <= s then Some(s[|p|..]) else None
  }

  /** strings.TrimRight(s, "\r"). */
  function TrimCR(s: string): string {
    if s != "" && s[|s| - 1] == '\r' then TrimCR(s[..|s| - 1]) else s
  }

  predicate EndsInCR(s: string) { s != "" && s[|s| - 1] == '\r' }

  /** Trimming only ever takes something, and only from a text that ends in a carriage return. */
  lemma {:induction false} TrimTakes(s: string)
    ensures TrimCR(s) <= s && !EndsInCR(TrimCR(s)) && (TrimCR(s) == s <==> !EndsInCR(s))
  {
    if EndsInCR(s) {
      TrimTakes(s[..|s| - 1]);
    }
  }

  /** Behind a text that does not end in one, the carriage returns of the end are trimmed alone. */
  lemma {:induction false} TrimConcat(a: string, b: string)
    requires !EndsInCR(a)
    ensures TrimCR(a + b) == a + TrimCR(b)
    decreases |b|
  {
    var s := a + b;
    if b == "" {
      assert s == a;
    } else {
      assert s[|s| - 1] == b[|b| - 1];
      if EndsInCR(b) {
        assert s[..|s| - 1] == a + b[..|b| - 1];
        TrimConcat(a, b[..|b| - 1]);
      }
    }
  }

  /** The pieces of two texts joined: the last piece of one runs into the first of the other. */
  function Glue(x: seq<string>, y: seq<string>): (r: seq<string>)
    requires |x| >= 1 && |y| >= 1
    ensures |r| == |x| + |y| - 1
  {
    if |x| == 1 then [x[0] + y[0]] + y[1..] else [x[0]] + Glue(x[1..], y)
  }

  lemma {:induction false} GluePieces(x: seq<string>, y: seq<string>)
    requires |x| >= 1 && |y| >= 1
    ensures forall m :: |x| <= m < |x| + |y| - 1 ==> Glue(x, y)[m] == y[m - |x| + 1]
    ensures Glue(x, y)[|x| - 1] == x[|x| - 1] + y[0]
    ensures forall m :: 0 <= m < |x| - 1 ==> Glue(x, y)[m] == x[m]
  {
    if |x| > 1 {
      GluePieces(x[1..], y);
    }
  }

  lemma {:induction false} SplitConcat(a: string, b: string, c: char)
    ensures Split(a + b, c) == Glue(Split(a, c), Split(b, c))
  {
    if a == "" {
      assert a + b == b;
      assert "" + Split(b, c)[0] == Split(b, c)[0];
    } else {
      var ra, rb := Split(a[1..], c), Split(b, c);
      SplitConcat(a[1..], b, c);
      assert (a + b)[1..] == a[1..] + b && (a + b)[0] == a[0];
      if a[0] == c {
        assert ([""] + ra)[1..] == ra;
      } else {
        GluePrepend(a[0], ra, rb);
      }
    }
  }

  lemma GluePrepend(h: char, x: seq<string>, y: seq<string>)
    requires |x| >= 1 && |y| >= 1
    ensures Glue(Prepend(h, x), y) == Prepend(h, Glue(x, y))
  {
    var p := Prepend(h, x);
    assert p[1..] == x[1..];
    if |x| == 1 {
      assert [h] + x[0] + y[0] == [h] + (x[0] + y[0]);
    }
  }

  lemma {:induction false} SplitWithout(s: string, c: char)
    requires c !in s
    ensures Split(s, c) == [s]
  {
    if s != "" {
      SplitWithout(s[1..], c);
      assert [s[0]] + s[1..] == s;
    }
  }

  lemma {:induction false} SplitTerminated(ls: seq<string>, c: char)
    requires forall l :: l in ls ==> c !in l
    ensures Split(Terminated(ls, c), c) == ls + [""]
  {
    if ls == [] {
    } else {
      var tail := Terminated(ls[1..], c);
      SplitTerminated(ls[1..], c);
      SplitWithout(ls[0], c);
      SplitConcat(ls[0], [c] + tail, c);
      assert ([c] + tail)[1..] == tail;
      assert Split([c] + tail, c) == [""] + (ls[1..] + [""]);
      assert ls[0] + ([c] + tail) == Terminated(ls, c);
      var rest := [""] + (ls[1..] + [""]);
      assert Glue([ls[0]], rest) == [ls[0] + ""] + rest[1..];
      assert ls[0] + "" == ls[0] && rest[1..] == ls[1..] + [""];
    }
  }

  ghost predicate Within(part: string, whole: string) {
    exists a: nat :: a <= |whole| && part <= whole[a..]
  }

  /** How the pieces of a contiguous part of a text relate to the pieces of the text: from some
      piece p on they are the same, except that the first may lack a beginning and the last an end. */
  ghost predicate PartOf(cut: seq<string>, full: seq<string>, p: nat) {
    && 1 <= |cut| && p + |cut| <= |full|
    && Within(cut[0], full[p])
    && (forall m :: 0 < m < |cut| ==> cut[m] <= full[p + m])
  }

  lemma SplitPart(s: string, i: nat, j: nat, c: char) returns (p: nat)
    requires i <= j <= |s|
    ensures PartOf(Split(s[i..j], c), Split(s, c), p)
  {
    var before, mid, after := s[..i], s[i..j], s[j..];
    assert s == before + (mid + after);
    SplitConcat(before, mid + after, c);
    SplitConcat(mid, after, c);
    p := |Split(before, c)| - 1;
    GluedPart(Split(before, c), Split(mid, c), Split(after, c));
  }

  lemma GluedPart(x: seq<string>, y: seq<string>, z: seq<string>)
    requires |x| >= 1 && |y| >= 1 && |z| >= 1
    ensures PartOf(y, Glue(x, Glue(y, z)), |x| - 1)
  {
    var yz := Glue(y, z);
    GluePieces(y, z);
    GluePieces(x, yz);
    var last := x[|x| - 1];
    assert Glue(x, yz)[|x| - 1] == last + yz[0] && (last + yz[0])[|last|..] == yz[0];
    assert |y| > 1 ==> yz[0] == y[0];
    assert |y| == 1 ==> yz[0] == y[0] + z[0];
    forall m | 0 < m < |y| ensures y[m] <= Glue(x, yz)[|x| - 1 + m] {
      var at := |x| - 1 + m;
      assert |x| <= at && Glue(x, yz)[at] == yz[at - |x| + 1];
      assert m < |y| - 1 ==> yz[m] == y[m];
      assert m == |y| - 1 ==> yz[m] == y[m] + z[0];
    }
  }

  /** n in decimal, without leading zeros. */
  function Decimal(n: nat): (s: string)
    ensures s != ""
    ensures forall k :: 0 <= k < |s| ==> IsDigit(s[k])
  {
    if n < 10 then ['0' + n as char] else Decimal(n / 10) + ['0' + (n % 10) as char]
  }

  predicate IsDigit(c: char) { '0' <= c <= '9' }

  function DigitsValue(s: string): (n: nat)
    requires forall k :: 0 <= k < |s| ==> IsDigit(s[k])
  {
    if s == "" then 0 else DigitsValue(s[..|s| - 1]) * 10 + DigitValue(s[|s| - 1])
  }

  function DigitValue(c: char): (n: nat)
    requires IsDigit(c)
  {
    c as int - '0' as int
  }

  lemma {:induction false} DecimalValue(n: nat)
    ensures DigitsValue(Decimal(n)) == n
  {
    var s := Decimal(n);
    if n < 10 {
      assert s[..0] == "";
    } else {
      DecimalValue(n / 10);
      assert s[..|s| - 1] == Decimal(n / 10);
    }
  }

  /** How many characters at the start of s are digits. */
  function DigitRun(s: string): (k: nat)
    ensures k <= |s|
    ensures forall i :: 0 <= i < k ==> IsDigit(s[i])
    ensures k < |s| ==> !IsDigit(s[k])
  {
    if s == "" || !IsDigit(s[0]) then 0 else 1 + DigitRun(s[1..])
  }

  lemma {:induction false} DigitRunOf(w: string, rest: string)
    requires forall k :: 0 <= k < |w| ==> IsDigit(w[k])
    requires rest == "" || !IsDigit(rest[0])
    ensures DigitRun(w + rest) == |w|
  {
    if w == "" {
      assert w + rest == rest;
    } else {
      DigitRunOf(w[1..], rest);
      assert (w + rest)[1..] == w[1..] + rest;
    }
  }

  /** unicode.IsSpace on ASCII. */
  predicate IsSpace(c: char) {
    c == ' ' || '\t' <= c <= '\r'
  }

  function SkipSpaces(s: string): (r: string)
    ensures |r| <= |s|
    ensures r == "" || !IsSpace(r[0])
    ensures s == "" || !IsSpace(s[0]) ==> r == s
  {
    if s != "" && IsSpace(s[0]) then SkipSpaces(s[1..]) else s
  }

  /** How many characters at the start of s are not spaces. */
  function WordRun(s: string): (k: nat)
    ensures k <= |s|
    ensures forall i :: 0 <= i < k ==> !IsSpace(s[i])
    ensures k < |s| ==> IsSpace(s[k])
  {
    if s == "" || IsSpace(s[0]) then 0 else 1 + WordRun(s[1..])
  }

  lemma {:induction false} WordRunOf(w: string, rest: string)
    requires forall i :: 0 <= i < |w| ==> !IsSpace(w[i])
    requires rest == "" || IsSpace(rest[0])
    ensures WordRun(w + rest) == |w|
  {
    if w == "" {
      assert w + rest == rest;
    } else {
      WordRunOf(w[1..], rest);
      assert (w + rest)[1..] == w[1..] + rest;
    }
  }

  /** strings.TrimSpace. */
  function TrimSpace(s: string): string {
    TrimSpacesRight(SkipSpaces(s))
  }

  function TrimSpacesRight(s: string): string {
    if s != "" && IsSpace(s[|s| - 1]) then TrimSpacesRight(s[..|s| - 1]) else s
  }

  /** strings.Fields: the maximal runs of characters that are not spaces. */
  function Fields(s: string): (r: seq<string>)
    ensures forall f :: f in r ==> f != "" && forall k :: 0 <= k < |f| ==> !IsSpace(f[k])
    decreases |s|
  {
    var t := SkipSpaces(s);
    if t == "" then []
    else
      var k := WordRun(t);
      [t[..k]] + Fields(t[k..])
  }
}
