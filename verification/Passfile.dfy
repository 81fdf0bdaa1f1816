/** The password file: the escaping that the runner's shell writes (internal/conn/conn.go) against
    the way libpq reads a line, "The Password File" in the PostgreSQL documentation. */
module Passfile {
  import opened Text

  // ------------------------------------------------------------------ writing

  /** sed 's/c/r/g' for a single character c. */
  function Replace(s: string, c: char, r: string): string {
    if s == "" then "" else (if s[0] == c then r else [s[0]]) + Replace(s[1..], c, r)
  }

  /** The two sed passes: backslashes first, then colons. */
  function Escape(s: string): string {
    Replace(Replace(s, '\\', "\\\\"), ':', "\\:")
  }

  /** $(...) drops the trailing newlines of what a command prints. */
  function Capture(s: string): string {
    if s != "" && s[|s| - 1] == '\n' then Capture(s[..|s| - 1]) else s
  }

  function Newlines(n: nat): string {
    if n == 0 then "" else Newlines(n - 1) + "\n"
  }

  /** A connection's host, user and the text of its password file. A static connection comes
      from the spec, the other kind from a Secret. */
  datatype Entry = Entry(fromSpec: bool, host: string, user: string, file: string)

  /** The line of a Secret's connection: all three values are escaped. */
  function SecretLine(e: Entry): string {
    Escape(e.host) + (":*:*:" + (Escape(e.user) + (":" + Escape(Capture(e.file)))))
  }

  /** The line of a static connection: host and user come from the spec as they are. */
  function StaticLine(e: Entry): string {
    e.host + (":*:*:" + (e.user + (":" + Capture(Escape(e.file)))))
  }

  function LineOf(e: Entry): string {
    if e.fromSpec then StaticLine(e) else SecretLine(e)
  }

  // ------------------------------------------------------------------ reading

  /** libpq's reading of a line: one that begins with # is a comment, and carriage returns at its end
      go with its newline. */
  function Read(line: string): Option<seq<string>> {
    if line != "" && line[0] == '#' then None else Some(Fields(TrimCR(line)))
  }

  /** The fields of a line: a backslash escapes the next character, any other colon ends a field. */
  function Fields(s: string): (r: seq<string>)
    ensures |r| >= 1
  {
    if s == "" then [""]
    else if s[0] == '\\' then (if |s| == 1 then [""] else Prepend(s[1], Fields(s[2..])))
    else if s[0] == ':' then [""] + Fields(s[1..])
    else Prepend(s[0], Fields(s[1..]))
  }

  predicate Plain(s: string) { ':' !in s && '\\' !in s }

  predicate Comment(s: string) { s != "" && s[0] == '#' }

  /** The escaping written directly, character by character. */
  function Escaped(s: string): string {
    if s == "" then "" else EscapedChar(s[0]) + Escaped(s[1..])
  }

  function EscapedChar(c: char): (r: string)
    ensures 1 <= |r| <= 2
  {
    if c == '\\' then "\\\\" else if c == ':' then "\\:" else [c]
  }

  lemma {:induction false} ReplaceConcat(a: string, b: string, c: char, r: string)
    ensures Replace(a + b, c, r) == Replace(a, c, r) + Replace(b, c, r)
  {
    if a == "" {
      assert a + b == b;
    } else {
      ReplaceConcat(a[1..], b, c, r);
      assert (a + b)[1..] == a[1..] + b;
    }
  }

  /** Backslashes before colons is the right order: no pass rewrites what the other wrote. */
  lemma {:induction false} EscapeIsEscaped(s: string)
    ensures Escape(s) == Escaped(s)
  {
    if s != "" {
      var h := if s[0] == '\\' then "\\\\" else [s[0]];
      EscapeIsEscaped(s[1..]);
      ReplaceConcat(h, Replace(s[1..], '\\', "\\\\"), ':', "\\:");
      ReplaceShort(h);
    }
  }

  lemma ReplaceShort(h: string)
    requires h == "\\\\" || |h| == 1
    ensures Replace(h, ':', "\\:") == if h == ":" then "\\:" else h
  {
    assert h[1..] == "" || h[1..] == "\\";
    assert h == "\\\\" ==> h[1..][1..] == "";
  }

  // ------------------------------------------------------------------ one field

  /** An escaped text followed by a colon is one field, read back as written. */
  lemma {:induction false} EscapedFieldReads(s: string, rest: string)
    ensures Fields(Escaped(s) + (":" + rest)) == [s] + Fields(rest)
  {
    var line := Escaped(s) + (":" + rest);
    if s == "" {
      assert line == ":" + rest && line[1..] == rest;
    } else {
      var tail := Escaped(s[1..]) + (":" + rest);
      EscapedFieldReads(s[1..], rest);
      HeadReads(s[0], Escaped(s[1..]), ":" + rest);
      assert Prepend(s[0], [s[1..]] + Fields(rest)) == [[s[0]] + s[1..]] + Fields(rest);
      assert [s[0]] + s[1..] == s;
    }
  }

  /** The first escaped character is read back as itself. */
  lemma HeadReads(c: char, x: string, y: string)
    ensures Fields((EscapedChar(c) + x) + y) == Prepend(c, Fields(x + y))
  {
    var h := EscapedChar(c);
    var line := (h + x) + y;
    assert line[0] == h[0] && line[|h|..] == x + y;
    assert |h| == 2 ==> line[1] == c;
  }

  /** An escaped text at the end of the line is the last field. */
  lemma {:induction false} EscapedLastReads(s: string)
    ensures Fields(Escaped(s)) == [s]
  {
    if s != "" {
      EscapedLastReads(s[1..]);
      HeadReads(s[0], Escaped(s[1..]), "");
      assert Escaped(s[1..]) + "" == Escaped(s[1..]);
      assert Escaped(s) + "" == Escaped(s);
      assert [s[0]] + s[1..] == s;
    }
  }

  lemma {:induction false} PlainIsEscaped(s: string)
    requires Plain(s)
    ensures Escaped(s) == s
  {
    if s != "" {
      PlainIsEscaped(s[1..]);
    }
  }

  function Backslashes(n: nat): string {
    if n == 0 then "" else "\\" + Backslashes(n - 1)
  }

  /** Reading never puts back a backslash that it took. */
  lemma {:induction false} NoBackslashComesBack(m: nat, k: string, rest: string)
    requires m >= 1
    ensures Fields(k + (":" + rest))[0] != Backslashes(m) + k
    decreases |k|
  {
    var line := k + (":" + rest);
    var want := Backslashes(m) + k;
    assert want[0] == '\\';
    if k == "" {
      assert line[0] == ':';
    } else if k[0] == '\\' {
      if |k| == 1 {
        assert line[0] == '\\' && line[1] == ':';
      } else {
        assert line[2..] == k[2..] + (":" + rest) && line[1] == k[1];
        NoBackslashComesBack(m + 1, k[2..], rest);
        PairShifts(m, k);
        assert Fields(line)[0][1..] == Fields(line[2..])[0];
        assert want[1..] == Backslashes(m - 1) + k;
        assert want[1..] == Backslashes(m + 1) + k[2..] || k[1] != '\\';
        assert Fields(line)[0][0] == k[1];
        assert k[1] != '\\' ==> want[1] == '\\';
      }
    } else {
      assert line[0] == k[0];
    }
  }

  /** Two backslashes at the head of k join the ones before it. */
  lemma PairShifts(m: nat, k: string)
    requires m >= 1 && |k| >= 2 && k[0] == '\\'
    ensures k[1] == '\\' ==> Backslashes(m - 1) + k == Backslashes(m + 1) + k[2..]
  {
    BackslashesEnd(m - 1);
    if k[1] == '\\' {
      assert k == "\\\\" + k[2..];
      HeadFirst(Backslashes(m - 1), "\\\\", k[2..]);
    }
  }

  lemma {:induction false} BackslashesEnd(n: nat)
    ensures Backslashes(n) + "\\\\" == Backslashes(n + 2)
  {
    if n > 0 {
      BackslashesEnd(n - 1);
      assert Backslashes(n) + "\\\\" == "\\" + (Backslashes(n - 1) + "\\\\");
    } else {
      assert Backslashes(0) + "\\\\" == "\\\\";
      assert Backslashes(2) == "\\" + ("\\" + Backslashes(0));
    }
  }

  /** A text written as it is reads back if and only if it holds neither a colon nor a backslash. */
  lemma {:induction false} RawFieldReadsIff(s: string, rest: string)
    ensures Fields(s + (":" + rest))[0] == s <==> Plain(s)
    ensures Plain(s) ==> Fields(s + (":" + rest)) == [s] + Fields(rest)
  {
    if Plain(s) {
      PlainIsEscaped(s);
      EscapedFieldReads(s, rest);
    } else {
      RawFieldBreaks(s, rest);
    }
  }

  lemma {:induction false} RawFieldBreaks(s: string, rest: string)
    requires !Plain(s)
    ensures Fields(s + (":" + rest))[0] != s
  {
    var line := s + (":" + rest);
    if s[0] == ':' {
    } else if s[0] == '\\' {
      if |s| == 1 {
        assert line[1] == ':';
      } else {
        assert line[2..] == s[2..] + (":" + rest) && line[1] == s[1];
        NoBackslashComesBack(1, s[2..], rest);
        assert Fields(line)[0][1..] == Fields(line[2..])[0] && Fields(line)[0][0] == s[1];
        assert Backslashes(1) == "\\" + Backslashes(0);
        assert s[1] == '\\' ==> s[1..] == Backslashes(1) + s[2..];
      }
    } else {
      assert line[0] == s[0] && line[1..] == s[1..] + (":" + rest);
      RawFieldBreaks(s[1..], rest);
      assert Fields(line)[0][1..] == Fields(line[1..])[0];
    }
  }

  // ------------------------------------------------------------------ one line

  /** The file a Secret is mounted as: the password, perhaps with newlines behind it. */
  predicate Holds(file: string, password: string) {
    '\n' !in password && exists n: nat :: n <= |file| && file == password + Newlines(n)
  }

  lemma {:induction false} CaptureDrops(s: string, n: nat)
    requires '\n' !in s
    ensures Capture(s + Newlines(n)) == s
  {
    if n == 0 {
      assert s + Newlines(0) == s;
    } else {
      var t := s + Newlines(n);
      assert t == (s + Newlines(n - 1)) + "\n" && t[..|t| - 1] == s + Newlines(n - 1);
      CaptureDrops(s, n - 1);
    }
  }

  lemma {:induction false} EscapedConcat(a: string, b: string)
    ensures Escaped(a + b) == Escaped(a) + Escaped(b)
  {
    if a == "" {
      assert a + b == b;
    } else {
      EscapedConcat(a[1..], b);
      assert (a + b)[1..] == a[1..] + b;
      HeadFirst(EscapedChar(a[0]), Escaped(a[1..]), Escaped(b));
    }
  }

  lemma HeadFirst(h: string, x: string, y: string)
    ensures (h + x) + y == h + (x + y)
  {
  }

  lemma {:induction false} EscapedNewlines(n: nat)
    ensures Escaped(Newlines(n)) == Newlines(n)
  {
    if n > 0 {
      EscapedNewlines(n - 1);
      EscapedConcat(Newlines(n - 1), "\n");
      assert "\n"[1..] == "";
    }
  }

  lemma {:induction false} EscapedKeepsLines(s: string)
    ensures '\n' in Escaped(s) <==> '\n' in s
  {
    if s != "" {
      EscapedKeepsLines(s[1..]);
      assert s == [s[0]] + s[1..];
    }
  }

  /** Both ways to read and escape the file give the escaped password. */
  lemma PasswordEscapes(file: string, password: string)
    requires Holds(file, password)
    ensures Escape(Capture(file)) == Escaped(password) && Capture(Escape(file)) == Escaped(password)
  {
    var n: nat :| n <= |file| && file == password + Newlines(n);
    CaptureDrops(password, n);
    EscapeIsEscaped(password);
    EscapeIsEscaped(file);
    EscapedConcat(password, Newlines(n));
    EscapedNewlines(n);
    EscapedKeepsLines(password);
    CaptureDrops(Escaped(password), n);
  }

  lemma StarsNest(rest: string)
    ensures ":*:*:" + rest == ":" + ("*:" + ("*:" + rest))
  {
    assert ":*:*:" == ":" + ("*:" + "*:");
    HeadFirst(":", "*:" + "*:", rest);
    HeadFirst("*:", "*:", rest);
  }

  lemma StarsRead(rest: string)
    ensures Fields("*:" + ("*:" + rest)) == ["*", "*"] + Fields(rest)
  {
    EscapedFieldReads("*", "*:" + rest);
    EscapedFieldReads("*", rest);
    PlainIsEscaped("*");
    assert "*" + (":" + ("*:" + rest)) == "*:" + ("*:" + rest);
    assert "*" + (":" + rest) == "*:" + rest;
  }

  lemma SecretLineIs(e: Entry, password: string)
    requires Holds(e.file, password)
    ensures SecretLine(e) == Escaped(e.host) + (":" + ("*:" + ("*:" + (Escaped(e.user) + (":" + Escaped(password))))))
  {
    PasswordEscapes(e.file, password);
    EscapeIsEscaped(e.host);
    EscapeIsEscaped(e.user);
    StarsNest(Escaped(e.user) + (":" + Escaped(password)));
  }

  /** A carriage return is written as it is, so trimming what is written trims what was meant. */
  lemma {:induction false} EscapedTrims(s: string)
    ensures TrimCR(Escaped(s)) == Escaped(TrimCR(s))
    decreases |s|
  {
    if s != "" {
      var front, last := s[..|s| - 1], s[|s| - 1..];
      assert s == front + last && last == [s[|s| - 1]] && last[1..] == "";
      EscapedConcat(front, last);
      assert Escaped(last) == EscapedChar(last[0]) + Escaped(last[1..]) == EscapedChar(last[0]);
      if EndsInCR(s) {
        EscapedTrims(front);
        assert Escaped(s)[..|Escaped(s)| - 1] == Escaped(front);
      } else {
        assert !EndsInCR(Escaped(s));
      }
    }
  }

  /** What a Secret's line holds before the password. */
  lemma SecretParts(e: Entry, password: string) returns (a: string)
    requires Holds(e.file, password)
    ensures SecretLine(e) == a + Escaped(password) && !EndsInCR(a) && a != "" && (a[0] == '#' <==> Comment(e.host))
    ensures SecretLine(e.(file := TrimCR(password))) == a + Escaped(TrimCR(password))
    ensures Holds(TrimCR(password), TrimCR(password))
  {
    a := Escape(e.host) + (":*:*:" + (Escape(e.user) + ":"));
    PasswordEscapes(e.file, password);
    TrimmedHolds(password);
    PasswordEscapes(TrimCR(password), TrimCR(password));
    HeadFirst(":*:*:", Escape(e.user), ":");
    PartsJoin(Escape(e.host), Escape(e.user), Escaped(password));
    PartsJoin(Escape(e.host), Escape(e.user), Escaped(TrimCR(password)));
    EscapeIsEscaped(e.host);
    assert e.host != "" ==> Escaped(e.host)[0] == EscapedChar(e.host[0])[0];
  }

  lemma PartsJoin(h: string, u: string, p: string)
    ensures h + (":*:*:" + (u + (":" + p))) == (h + (":*:*:" + (u + ":"))) + p
  {
    HeadFirst(u, ":", p);
    HeadFirst(":*:*:", u + ":", p);
    HeadFirst(h, ":*:*:" + (u + ":"), p);
  }

  lemma TrimmedHolds(password: string)
    requires '\n' !in password
    ensures Holds(TrimCR(password), TrimCR(password))
  {
    TrimTakes(password);
    assert TrimCR(password) == TrimCR(password) + Newlines(0);
  }

  /** The fields of a Secret's line are host, any port, any database, user and password, whatever
      characters the three values hold. */
  lemma SecretFields(e: Entry, password: string)
    requires Holds(e.file, password)
    ensures Fields(SecretLine(e)) == [e.host, "*", "*", e.user, password]
  {
    var last := Escaped(e.user) + (":" + Escaped(password));
    SecretLineIs(e, password);
    EscapedLastReads(password);
    EscapedFieldReads(e.user, Escaped(password));
    StarsRead(last);
    EscapedFieldReads(e.host, "*:" + ("*:" + last));
    FiveFields(e.host, e.user, password, Fields(last));
  }

  /** The line of a Secret's connection reads back, if and only if the host does not begin with # and
      the password does not end in a carriage return: libpq takes the one for a comment, and drops the
      other with the line's end. */
  lemma SecretLineReadsBackIff(e: Entry, password: string)
    requires Holds(e.file, password)
    ensures Read(SecretLine(e)) ==
              if Comment(e.host) then None else Some([e.host, "*", "*", e.user, TrimCR(password)])
    ensures Read(SecretLine(e)) == Some([e.host, "*", "*", e.user, password]) <==>
              !Comment(e.host) && !EndsInCR(password)
  {
    var a := SecretParts(e, password);
    TrimConcat(a, Escaped(password));
    EscapedTrims(password);
    TrimTakes(password);
    assert SecretLine(e)[0] == a[0];
    SecretFields(e.(file := TrimCR(password)), TrimCR(password));
    LastDiffers([e.host, "*", "*", e.user], TrimCR(password), password);
  }

  lemma LastDiffers(a: seq<string>, x: string, y: string)
    ensures a + [x] == a + [y] <==> x == y
  {
    assert (a + [x])[|a|] == x && (a + [y])[|a|] == y;
  }

  /** A password file with a carriage return before its newline loses it, and so the password. */
  lemma CarriageReturnIsLost(host: string, user: string)
    requires !Comment(host)
    ensures var e := Entry(false, host, user, "pw\r\n");
            Holds(e.file, "pw\r") && Read(SecretLine(e)) == Some([host, "*", "*", user, "pw"])
  {
    assert "pw\r\n" == "pw\r" + Newlines(1) by { assert Newlines(1) == Newlines(0) + "\n"; }
    SecretLineReadsBackIff(Entry(false, host, user, "pw\r\n"), "pw\r");
    assert "pw\r"[..2] == "pw";
  }

  /** A host that begins with # makes its whole line a comment. */
  lemma CommentHostIsLost(user: string, password: string)
    requires '\n' !in password
    ensures var e := Entry(false, "#db", user, password);
            Holds(e.file, password) && Read(SecretLine(e)) == None
  {
    assert password == password + Newlines(0);
    SecretLineReadsBackIff(Entry(false, "#db", user, password), password);
  }

  /** The fields of a static line whose host is plain. */
  lemma StaticFields(e: Entry, password: string)
    requires Holds(e.file, password)
    ensures Fields(StaticLine(e))[0] == e.host <==> Plain(e.host)
    ensures Plain(e.host) ==>
              Fields(StaticLine(e)) == [e.host] + (["*", "*"] + Fields(e.user + (":" + Escaped(password))))
  {
    PasswordEscapes(e.file, password);
    var last := e.user + (":" + Escaped(password));
    StarsRead(last);
    RawFieldReadsIff(e.host, "*:" + ("*:" + last));
    StarsNest(last);
  }

  lemma StaticFieldsIff(e: Entry, password: string)
    requires Holds(e.file, password)
    ensures Fields(StaticLine(e)) == [e.host, "*", "*", e.user, password] <==> Plain(e.host) && Plain(e.user)
    ensures Fields(StaticLine(e))[0] == e.host <==> Plain(e.host)
    ensures Plain(e.host) ==> |Fields(StaticLine(e))| >= 4 && (Fields(StaticLine(e))[3] == e.user <==> Plain(e.user))
  {
    StaticFields(e, password);
    RawFieldReadsIff(e.user, Escaped(password));
    if Plain(e.host) {
      EscapedLastReads(password);
      FiveFields(e.host, e.user, password, Fields(e.user + (":" + Escaped(password))));
    }
  }

  lemma StaticParts(e: Entry, password: string) returns (a: string)
    requires Holds(e.file, password)
    ensures StaticLine(e) == a + Escaped(password) && !EndsInCR(a) && a != "" && (a[0] == '#' <==> Comment(e.host))
    ensures StaticLine(e.(file := TrimCR(password))) == a + Escaped(TrimCR(password))
    ensures Holds(TrimCR(password), TrimCR(password))
  {
    a := e.host + (":*:*:" + (e.user + ":"));
    PasswordEscapes(e.file, password);
    TrimmedHolds(password);
    PasswordEscapes(TrimCR(password), TrimCR(password));
    PartsJoin(e.host, e.user, Escaped(password));
    PartsJoin(e.host, e.user, Escaped(TrimCR(password)));
  }

  /** The line of a static connection reads back if and only if host and user hold neither a colon
      nor a backslash, the host does not begin with #, and the password does not end in a carriage
      return. */
  lemma StaticLineReadsBackIff(e: Entry, password: string)
    requires Holds(e.file, password)
    ensures Read(StaticLine(e)) == Some([e.host, "*", "*", e.user, password]) <==>
              Plain(e.host) && Plain(e.user) && !Comment(e.host) && !EndsInCR(password)
    ensures Plain(e.host) && Plain(e.user) ==>
              Read(StaticLine(e)) ==
                if Comment(e.host) then None else Some([e.host, "*", "*", e.user, TrimCR(password)])
  {
    var a := StaticParts(e, password);
    var t := e.(file := TrimCR(password));
    TrimConcat(a, Escaped(password));
    EscapedTrims(password);
    TrimTakes(password);
    assert StaticLine(e)[0] == a[0] && TrimCR(StaticLine(e)) == StaticLine(t);
    StaticFieldsIff(t, TrimCR(password));
    LastDiffers([e.host, "*", "*", e.user], TrimCR(password), password);
  }

  lemma SpilledFields(rest: string)
    ensures Fields("a:b" + (":" + Escaped(rest))) == ["a"] + (["b"] + [rest])
  {
    var tail := Escaped(rest);
    assert "a:b" + (":" + tail) == "a" + (":" + ("b" + (":" + tail)));
    RawFieldReadsIff("a", "b" + (":" + tail));
    RawFieldReadsIff("b", tail);
    EscapedLastReads(rest);
  }

  /** A static user with a colon spills into the password: user a:b is read as a with the password b. */
  lemma ColonSpills(password: string)
    requires '\n' !in password && !EndsInCR(password)
    ensures var e := Entry(true, "db", "a:b", password);
            && Holds(e.file, password)
            && Read(StaticLine(e)) == Some(["db"] + (["*", "*"] + (["a"] + (["b"] + [password]))))
  {
    var e := Entry(true, "db", "a:b", password);
    assert password == password + Newlines(0);
    var line := WholeLine(e, password);
    StaticFields(e, password);
    SpilledFields(password);
  }

  /** A static line that is no comment and ends in no carriage return is read whole. */
  lemma WholeLine(e: Entry, password: string) returns (line: string)
    requires Holds(e.file, password) && !Comment(e.host) && !EndsInCR(password)
    ensures line == StaticLine(e) && Read(line) == Some(Fields(line))
  {
    var a := StaticParts(e, password);
    line := StaticLine(e);
    TrimTakes(password);
    TrimConcat(a, Escaped(password));
    EscapedTrims(password);
    assert line[0] == a[0];
  }

  lemma FiveFields(h: string, u: string, p: string, last: seq<string>)
    requires |last| >= 1 && (last[0] == u ==> last == [u, p])
    ensures [h] + (["*", "*"] + last) == [h, "*", "*", u, p] <==> last[0] == u
  {
    var all := [h] + (["*", "*"] + last);
    assert all[3] == last[0];
  }

  // ------------------------------------------------------------------ the whole file

  function Lines(es: seq<Entry>): (r: seq<string>)
    ensures |r| == |es| && forall i :: 0 <= i < |es| ==> r[i] == LineOf(es[i])
  {
    seq(|es|, i requires 0 <= i < |es| => LineOf(es[i]))
  }

  lemma LinesGrow(es: seq<Entry>, i: nat)
    requires i < |es|
    ensures Lines(es[..i + 1]) == Lines(es[..i]) + [LineOf(es[i])]
  {
  }

  lemma {:induction false} TerminatedConcat(a: seq<string>, b: seq<string>, c: char)
    ensures Terminated(a + b, c) == Terminated(a, c) + Terminated(b, c)
  {
    if a == [] {
      assert a + b == b;
    } else {
      TerminatedConcat(a[1..], b, c);
      assert (a + b)[1..] == a[1..] + b;
    }
  }

  /** Each connection appends its line to the file. */
  method WriteFile(es: seq<Entry>) returns (file: string)
    ensures file == Terminated(Lines(es), '\n')
  {
    file := "";
    var i := 0;
    while i < |es|
      invariant 0 <= i <= |es| && file == Terminated(Lines(es[..i]), '\n')
    {
      var line := LineOf(es[i]);
      LinesGrow(es, i);
      TerminatedConcat(Lines(es[..i]), [line], '\n');
      assert [line][1..] == [] && Terminated([line], '\n') == line + ['\n'];
      file := file + (line + ['\n']);
      i := i + 1;
    }
    assert es[..i] == es;
  }

  /** What a client connects to. */
  datatype Target = Target(host: string, port: string, database: string, user: string)

  /** A field of the file matches a value when it is a lone star or the value itself. */
  predicate Matches(field: string, value: string) { field == "*" || field == value }

  predicate LineMatches(f: seq<string>, t: Target) {
    |f| >= 5 && Matches(f[0], t.host) && Matches(f[1], t.port) && Matches(f[2], t.database) && Matches(f[3], t.user)
  }

  /** libpq's lookup: the password of the first line that matches. */
  function Lookup(lines: seq<string>, t: Target): Option<string> {
    if lines == [] then None
    else
      var f := Read(lines[0]);
      if f.Some? && LineMatches(f.value, t) then Some(f.value[4]) else Lookup(lines[1..], t)
  }

  /** The connection's line serves this target: it is no comment, and host and user match. */
  predicate ServesTarget(e: Entry, t: Target) {
    !Comment(e.host) && Matches(e.host, t.host) && Matches(e.user, t.user)
  }

  /** The password of the first connection that serves the target, on any port and database, without
      the carriage returns at its end. */
  function PasswordOf(es: seq<Entry>, t: Target): Option<string> {
    if es == [] then None
    else if ServesTarget(es[0], t) then Some(TrimCR(Capture(es[0].file)))
    else PasswordOf(es[1..], t)
  }

  /** Every value of the connection fits on a line, and those of a static one need no escape. */
  predicate Fits(e: Entry) {
    '\n' !in e.host && '\n' !in e.user && '\n' !in Capture(e.file) && (e.fromSpec ==> Plain(e.host) && Plain(e.user))
  }

  lemma LineIsOneLine(e: Entry)
    requires Fits(e)
    ensures '\n' !in LineOf(e)
  {
    CaptureHolds(e.file);
    PasswordEscapes(e.file, Capture(e.file));
    EscapeIsEscaped(e.host);
    EscapeIsEscaped(e.user);
    EscapedKeepsLines(e.host);
    EscapedKeepsLines(e.user);
    EscapedKeepsLines(Capture(e.file));
  }

  lemma {:induction false} CaptureHolds(s: string)
    ensures exists n: nat :: n <= |s| && s == Capture(s) + Newlines(n)
  {
    if s != "" && s[|s| - 1] == '\n' {
      CaptureHolds(s[..|s| - 1]);
      var n: nat :| n <= |s| - 1 && s[..|s| - 1] == Capture(s) + Newlines(n);
      assert s == s[..|s| - 1] + "\n" == Capture(s) + Newlines(n + 1);
    } else {
      assert s == Capture(s) + Newlines(0);
    }
  }

  lemma {:induction false} LookupReadsBack(es: seq<Entry>, t: Target)
    requires forall e :: e in es ==> Fits(e)
    ensures Lookup(Lines(es), t) == PasswordOf(es, t)
  {
    if es != [] {
      var e := es[0];
      assert e in es;
      assert forall x :: x in es[1..] ==> x in es;
      LookupReadsBack(es[1..], t);
      LookupStep(e, Lines(es[1..]), t);
      assert Lines(es) == [LineOf(e)] + Lines(es[1..]);
    }
  }

  lemma LookupStep(e: Entry, rest: seq<string>, t: Target)
    requires Fits(e)
    ensures Lookup([LineOf(e)] + rest, t) ==
              if ServesTarget(e, t) then Some(TrimCR(Capture(e.file))) else Lookup(rest, t)
  {
    var line := ReadLine(e);
    assert ([line] + rest)[1..] == rest;
  }

  lemma ReadLine(e: Entry) returns (line: string)
    requires Fits(e)
    ensures line == LineOf(e)
    ensures Read(line) == if Comment(e.host) then None else Some([e.host, "*", "*", e.user, TrimCR(Capture(e.file))])
  {
    line := LineOf(e);
    CaptureHolds(e.file);
    if e.fromSpec {
      StaticLineReadsBackIff(e, Capture(e.file));
    } else {
      SecretLineReadsBackIff(e, Capture(e.file));
    }
  }

  /** Read line by line, a file of static and Secret connections gives every target the password of
      the first connection that serves it: no value leaks into another field or another line. */
  lemma FileReadsBack(es: seq<Entry>, t: Target)
    requires forall e :: e in es ==> Fits(e)
    ensures var ls := Split(Terminated(Lines(es), '\n'), '\n');
            ls[|ls| - 1] == "" && Lookup(ls[..|ls| - 1], t) == PasswordOf(es, t)
  {
    forall l | l in Lines(es) ensures '\n' !in l {
      var i :| 0 <= i < |es| && Lines(es)[i] == l;
      assert es[i] in es;
      LineIsOneLine(es[i]);
    }
    SplitTerminated(Lines(es), '\n');
    assert (Lines(es) + [""])[..|es|] == Lines(es);
    LookupReadsBack(es, t);
  }
}
