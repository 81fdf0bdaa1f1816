/** The retry gate's probe: the lines its shell script prints, and the parser that reads them back
    from the pod log (internal/controller/retry_gate_job.go). */
module GateLog {
  import opened Text
  import opened Conditions

  /** The checks a probe runs beside the census. */
  datatype Inputs = Inputs(commitTest: bool, expectLocal: bool)

  datatype Census = Census(total: int, syncRep: int, named: bool, syncRepSince: int, gateWaiting: int)

  datatype Session = Session(line: string, idle: bool)

  datatype Result = Result(
    census: Option<Census>, censusDetail: string, sessions: seq<Session>,
    syncCommit: Option<string>, syncCommitDetail: string,
    commit: string, commitDetail: string, pass: bool)

  const EMPTY := Result(None, "", [], None, "", "", "", false)

  // ------------------------------------------------------------------ the printer

  /** What the three psql calls of one run answered. */
  datatype CensusOutcome = Counted(census: Census, sessions: seq<string>) | CensusError(why: string)
  datatype SyncOutcome = Shown(value: string) | SyncError(why: string)
  datatype CommitOutcome = Committed | Cancelled | CommitError(why: string)
  datatype Outcome = Outcome(census: CensusOutcome, sync: SyncOutcome, commit: CommitOutcome)

  function YesNo(b: bool): string { if b then "yes" else "no" }

  function NumField(key: string, n: nat, rest: string): string {
    " " + (key + (Decimal(n) + rest))
  }

  function NamedField(named: bool, rest: string): string {
    " " + ("named=" + (YesNo(named) + rest))
  }

  /** The census as format() prints it after the prefix, its five fields separated by single spaces. */
  function CensusBody(c: Census): string
    requires Countable(c)
  {
    "census" +
    NumField("total=", c.total,
      NumField("syncrep=", c.syncRep,
        NamedField(c.named,
          NumField("syncrep_since=", c.syncRepSince,
            NumField("gate_waiting=", c.gateWaiting, "")))))
  }

  /** A count the SQL census can return: a non-negative bigint. */
  predicate Countable(c: Census) {
    0 <= c.total <= MAX_INT64 && 0 <= c.syncRep <= MAX_INT64 &&
    0 <= c.syncRepSince <= MAX_INT64 && 0 <= c.gateWaiting <= MAX_INT64
  }

  const MAX_INT64 := 0x7fff_ffff_ffff_ffff

  /** The run's outcome as psql and the shell hand it over: one line each, and a carriage return
      never ends one, because every error detail ends with the exit status in parentheses. */
  ghost predicate Printable(o: Outcome) {
    && (match o.census
        case Counted(c, ss) => Countable(c) && forall s :: s in ss ==> '\n' !in s
        case CensusError(why) => OneLine(why))
    && (match o.sync case Shown(v) => OneLine(v) case SyncError(why) => OneLine(why))
    && (o.commit.CommitError? ==> OneLine(o.commit.why) && o.commit.why != "")
  }

  ghost predicate OneLine(s: string) {
    '\n' !in s && TrimCR(s) == s
  }

  /** Every line the script prints for the operator. */
  function Line(rest: string): string { "gate: " + rest }

  function SessionLines(ss: seq<string>): (r: seq<string>)
    ensures forall l :: l in r ==> exists s :: s in ss && l == SessionLine(s)
  {
    if ss == [] then [] else [SessionLine(ss[0])] + SessionLines(ss[1..])
  }

  function SessionLine(s: string): (r: string)
    ensures |r| >= 14 && r[6] == 's'
  {
    Line("session " + s)
  }

  function CensusLines(o: CensusOutcome): seq<string>
    requires o.Counted? ==> Countable(o.census)
  {
    match o
    case Counted(c, ss) => [Line(CensusBody(c))] + SessionLines(ss)
    case CensusError(why) => [Line("census failed " + why)]
  }

  function SyncLines(o: SyncOutcome): seq<string> {
    match o
    case Shown(v) => [Line("synchronous_commit=" + v)]
    case SyncError(why) => [Line("synchronous_commit failed " + why)]
  }

  /** The word and the detail on the commit line. The test commit runs only when neither a counted
      session nor an earlier probe waits for synchronous replication. */
  function CommitResult(c: CensusOutcome, o: CommitOutcome): (string, string)
    requires c.Counted? ==> Countable(c.census)
  {
    match c
    case Counted(n, _) =>
      if n.syncRep == 0 && n.gateWaiting == 0 then
        match o
        case Committed => ("ok", "")
        case Cancelled => ("blocked", "")
        case CommitError(why) => ("failed", why)
      else if n.syncRep != 0 then ("skipped", "syncrep=" + Decimal(n.syncRep))
      else ("skipped", "gate_waiting=" + Decimal(n.gateWaiting))
    case CensusError(_) => ("skipped", "no census")
  }

  function CommitText(word: string, detail: string): string {
    if detail == "" then word else word + ([' '] + detail)
  }

  function CommitLines(c: CensusOutcome, o: CommitOutcome): seq<string>
    requires c.Counted? ==> Countable(c.census)
  {
    [Line("commit " + CommitText(CommitResult(c, o).0, CommitResult(c, o).1))]
  }

  /** The script's shell variable ok at the end of the run. */
  predicate AllOK(i: Inputs, o: Outcome) {
    && o.census.Counted? && o.census.census.total == 0
    && (i.expectLocal ==> o.sync == Shown("local"))
    && (i.commitTest ==>
          o.census.census.syncRep == 0 && o.census.census.gateWaiting == 0 && o.commit.Committed?)
  }

  function CheckLines(i: Inputs, o: Outcome): seq<string>
    requires o.census.Counted? ==> Countable(o.census.census)
  {
    CensusLines(o.census) +
    (if i.expectLocal then SyncLines(o.sync) else []) +
    (if i.commitTest then CommitLines(o.census, o.commit) else [])
  }

  function ScriptLines(i: Inputs, o: Outcome): seq<string>
    requires o.census.Counted? ==> Countable(o.census.census)
  {
    CheckLines(i, o) + (if AllOK(i, o) then [PASS] else [])
  }

  const PASS := Line("pass")

  /** A line of the log that the script did not print for the operator, such as the shell's notice of a
      killed timeout. */
  predicate Noise(l: string) { !("gate: " <= l) }

  function Printed(ls: seq<string>): seq<string> {
    if ls == [] then [] else if Noise(ls[0]) then Printed(ls[1..]) else [ls[0]] + Printed(ls[1..])
  }

  /** The run's log, line by line: what the script printed, and noise anywhere. */
  ghost predicate LogOf(i: Inputs, o: Outcome, ls: seq<string>)
    requires o.census.Counted? ==> Countable(o.census.census)
  {
    Printed(ls) == ScriptLines(i, o) && forall l :: l in ls ==> '\n' !in l
  }

  // ------------------------------------------------------------------ the parser

  /** fmt.Sscanf's %d: spaces, a sign, then digits that fit int64. */
  function ScanInt(s: string): Option<(int, string)> {
    var t := SkipSpaces(s);
    var signed := t != "" && (t[0] == '-' || t[0] == '+');
    var u := if signed then t[1..] else t;
    var k := DigitRun(u);
    if k == 0 then None
    else
      var v: int := if signed && t[0] == '-' then 0 - DigitsValue(u[..k]) else DigitsValue(u[..k]);
      if -MAX_INT64 - 1 <= v <= MAX_INT64 then Some((v, u[k..])) else None
  }

  /** fmt.Sscanf's %s. */
  function ScanWord(s: string): Option<(string, string)> {
    var t := SkipSpaces(s);
    var k := WordRun(t);
    if k == 0 then None else Some((t[..k], t[k..]))
  }

  /** A space in the format, then literal text: at least one space unless the input ends. */
  function ScanKey(s: string, key: string): Option<string> {
    if s != "" && !IsSpace(s[0]) then None else CutPrefix(SkipSpaces(s), key)
  }

  function ScanField(s: string, key: string): Option<(int, string)> {
    match ScanKey(s, key)
    case None => None
    case Some(rest) => ScanInt(rest)
  }

  function ParseCensus(line: string): Option<Census> {
    match CutPrefix(line, "census")
    case None => None
    case Some(l0) =>
      match ScanField(l0, "total=")
      case None => None
      case Some((total, l1)) =>
        match ScanField(l1, "syncrep=")
        case None => None
        case Some((syncRep, l2)) =>
          match ScanKey(l2, "named=")
          case None => None
          case Some(l3) =>
            match ScanWord(l3)
            case None => None
            case Some((named, l4)) =>
              match ScanField(l4, "syncrep_since=")
              case None => None
              case Some((since, l5)) =>
                match ScanField(l5, "gate_waiting=")
                case None => None
                case Some((waiting, _)) => Some(Census(total, syncRep, named == "yes", since, waiting))
  }

  predicate Contains(s: string, t: string)
    decreases |s|
  {
    t <= s || (s != "" && Contains(s[1..], t))
  }

  /** One line of the log, after its "gate: " prefix. */
  function ReadEntry(g: Result, rest: string): Result {
    if "census failed " <= rest then g.(censusDetail := rest[14..])
    else if "census " <= rest then (if g.census.None? then g.(census := ParseCensus(rest)) else g)
    else if "session " <= rest then
      g.(sessions := g.sessions + [Session(rest[8..], Contains(rest[8..], " state=idle wait="))])
    else if "synchronous_commit failed " <= rest then g.(syncCommitDetail := rest[26..])
    else if "synchronous_commit=" <= rest then g.(syncCommit := Some(rest[19..]))
    else if "commit " <= rest then
      match Cut(rest[7..], ' ')
      case None => g.(commit := rest[7..], commitDetail := "")
      case Some((c, d)) => g.(commit := c, commitDetail := d)
    else if rest == "pass" then g.(pass := true)
    else g
  }

  function ReadLine(g: Result, line: string): Result {
    match CutPrefix(TrimCR(line), "gate: ")
    case None => g
    case Some(rest) => ReadEntry(g, rest)
  }

  function ReadLines(g: Result, lines: seq<string>): Result
    decreases |lines|
  {
    if lines == [] then g else ReadLines(ReadLine(g, lines[0]), lines[1..])
  }

  /** parseGateLog, as the function the loop below computes. */
  function Parse(log: string): Result {
    ReadLines(EMPTY, Split(log, '\n'))
  }

  method ParseGateLog(log: string) returns (g: Result)
    ensures g == Parse(log)
  {
    var lines := Split(log, '\n');
    g := EMPTY;
    for k := 0 to |lines|
      invariant ReadLines(g, lines[k..]) == Parse(log)
    {
      assert lines[k..][1..] == lines[k + 1..];
      g := ReadLine(g, lines[k]);
    }
  }

  /** The pass line and each enabled check's own pass line. */
  predicate Passed(g: Result, i: Inputs) {
    && g.pass && g.census.Some? && g.census.value.total == 0
    && (!i.expectLocal || g.syncCommit == Some("local"))
    && (!i.commitTest || g.commit == "ok")
  }

  /** The first check, in script order, that did not pass; None for a passed probe. */
  function Hold(g: Result, i: Inputs): Option<Reason> {
    if g.census.None? then Some(ProbeFailed)
    else if g.census.value.total > 0 then Some(SessionsRemain)
    else if i.expectLocal && g.syncCommit.None? then Some(ProbeFailed)
    else if i.expectLocal && g.syncCommit != Some("local") then Some(SyncCommitNotLocal)
    else if i.commitTest && (g.commit == "blocked" || g.commit == "skipped") then Some(CommitBlocked)
    else if i.commitTest && g.commit != "ok" then Some(ProbeFailed)
    else if !Passed(g, i) then Some(ProbeFailed)
    else None
  }

  /** A hold reason is empty exactly for a passed probe, and a reason names a check that really
      did not pass, with every earlier check passed. */
  lemma HoldNamesAFailedCheck(g: Result, i: Inputs)
    ensures Hold(g, i).None? <==> Passed(g, i)
    ensures Hold(g, i) == Some(SessionsRemain) <==> g.census.Some? && g.census.value.total > 0
    ensures Hold(g, i) == Some(SyncCommitNotLocal) ==>
      i.expectLocal && g.syncCommit.Some? && g.syncCommit.value != "local" && g.census.Some? &&
      g.census.value.total <= 0
    ensures Hold(g, i) == Some(CommitBlocked) ==>
      i.commitTest && g.commit in {"blocked", "skipped"} && (i.expectLocal ==> g.syncCommit == Some("local"))
  {
  }

  // ------------------------------------------------------------------ they agree

  lemma CutPrefixOf(p: string, s: string)
    ensures CutPrefix(p + s, p) == Some(s)
  {
    assert (p + s)[|p|..] == s;
  }

  lemma KeyReads(key: string, rest: string)
    requires key != "" && !IsSpace(key[0])
    ensures ScanKey(" " + (key + rest), key) == Some(rest)
  {
    var s := " " + (key + rest);
    assert s[0] == ' ' && s[1..] == key + rest && (key + rest)[0] == key[0];
    assert SkipSpaces(s) == SkipSpaces(s[1..]);
    CutPrefixOf(key, rest);
  }

  lemma IntReads(n: nat, rest: string)
    requires n <= MAX_INT64
    requires rest == "" || IsSpace(rest[0])
    ensures ScanInt(Decimal(n) + rest) == Some((n, rest))
  {
    var d := Decimal(n);
    var s := d + rest;
    assert s[0] == d[0];
    assert SkipSpaces(s) == s;
    DigitRunOf(d, rest);
    DecimalValue(n);
    assert s[..|d|] == d && s[|d|..] == rest;
  }

  /** One numeric field of the census line reads back, and leaves what follows it. */
  lemma FieldReads(key: string, n: nat, rest: string)
    requires key != "" && !IsSpace(key[0]) && n <= MAX_INT64
    requires rest == "" || IsSpace(rest[0])
    ensures ScanField(NumField(key, n, rest), key) == Some((n, rest))
  {
    KeyReads(key, Decimal(n) + rest);
    IntReads(n, rest);
  }

  lemma NamedReads(named: bool, rest: string)
    requires rest == "" || IsSpace(rest[0])
    ensures ScanKey(NamedField(named, rest), "named=") == Some(YesNo(named) + rest)
    ensures ScanWord(YesNo(named) + rest) == Some((YesNo(named), rest))
  {
    var w := YesNo(named);
    KeyReads("named=", w + rest);
    assert (w + rest)[0] == w[0];
    WordRunOf(w, rest);
    assert (w + rest)[..|w|] == w && (w + rest)[|w|..] == rest;
  }

  lemma ParseChain(line: string, l0: string, l1: string, l2: string, l3: string, l4: string, l5: string, c: Census)
    requires CutPrefix(line, "census") == Some(l0)
    requires ScanField(l0, "total=") == Some((c.total, l1))
    requires ScanField(l1, "syncrep=") == Some((c.syncRep, l2))
    requires ScanKey(l2, "named=") == Some(l3)
    requires ScanWord(l3) == Some((YesNo(c.named), l4))
    requires ScanField(l4, "syncrep_since=") == Some((c.syncRepSince, l5))
    requires ScanField(l5, "gate_waiting=") == Some((c.gateWaiting, ""))
    ensures ParseCensus(line) == Some(c)
  {
    assert "no"[0] != "yes"[0];
  }

  /** Every census the script can print is read back number for number. */
  lemma CensusReads(c: Census)
    requires Countable(c)
    ensures ParseCensus(CensusBody(c)) == Some(c)
  {
    var l5 := NumField("gate_waiting=", c.gateWaiting, "");
    var l4 := NumField("syncrep_since=", c.syncRepSince, l5);
    var l3 := YesNo(c.named) + l4;
    var l2 := NamedField(c.named, l4);
    var l1 := NumField("syncrep=", c.syncRep, l2);
    var l0 := NumField("total=", c.total, l1);
    var line := "census" + l0;
    assert line == CensusBody(c);
    assert CutPrefix(line, "census") == Some(l0) by { CutPrefixOf("census", l0); }
    assert ScanField(l0, "total=") == Some((c.total, l1)) by { FieldReads("total=", c.total, l1); }
    assert ScanField(l1, "syncrep=") == Some((c.syncRep, l2)) by { FieldReads("syncrep=", c.syncRep, l2); }
    assert ScanKey(l2, "named=") == Some(l3) by { NamedReads(c.named, l4); }
    assert ScanWord(l3) == Some((YesNo(c.named), l4)) by { NamedReads(c.named, l4); }
    assert ScanField(l4, "syncrep_since=") == Some((c.syncRepSince, l5)) by {
      FieldReads("syncrep_since=", c.syncRepSince, l5);
    }
    assert ScanField(l5, "gate_waiting=") == Some((c.gateWaiting, "")) by {
      FieldReads("gate_waiting=", c.gateWaiting, "");
    }
    ParseChain(line, l0, l1, l2, l3, l4, l5, c);
  }

  lemma {:induction false} ReadLinesConcat(g: Result, a: seq<string>, b: seq<string>)
    ensures ReadLines(g, a + b) == ReadLines(ReadLines(g, a), b)
    decreases |a|
  {
    if a == [] {
      assert a + b == b;
    } else {
      ReadLinesConcat(ReadLine(g, a[0]), a[1..], b);
      assert (a + b)[1..] == a[1..] + b;
    }
  }

  /** A printed line reaches the parser as the text after its prefix. */
  lemma LineReads(g: Result, rest: string)
    ensures ReadLine(g, Line(rest)) == ReadEntry(g, TrimCR(rest))
  {
    TrimConcat("gate: ", rest);
    CutPrefixOf("gate: ", TrimCR(rest));
  }

  lemma CensusErrorReads(g: Result, why: string)
    requires OneLine(why)
    ensures ReadLine(g, Line("census failed " + why)) == g.(censusDetail := why)
  {
    TrimConcat("census failed ", why);
    LineReads(g, "census failed " + why);
    assert ("census failed " + why)[14..] == why;
  }

  lemma BodyStarts(c: Census)
    requires Countable(c)
    ensures "census " <= CensusBody(c) && !("census failed " <= CensusBody(c))
  {
    var tail := NumField("total=", c.total,
      NumField("syncrep=", c.syncRep,
        NamedField(c.named, NumField("syncrep_since=", c.syncRepSince, NumField("gate_waiting=", c.gateWaiting, "")))));
    FieldStarts(CensusBody(c), tail);
  }

  lemma FieldStarts(s: string, tail: string)
    requires s == "census" + tail && |tail| >= 2 && tail[0] == ' ' && tail[1] == 't'
    ensures "census " <= s && !("census failed " <= s)
  {
    assert s[6] == ' ' && s[7] == 't';
  }

  lemma EntryCensus(g: Result, rest: string)
    requires "census " <= rest && !("census failed " <= rest) && g.census.None?
    ensures ReadEntry(g, rest) == g.(census := ParseCensus(rest))
  {
  }

  lemma CensusLineReads(g: Result, c: Census)
    requires Countable(c) && g.census.None?
    ensures ReadLine(g, Line(CensusBody(c))) == g.(census := Some(c))
  {
    EndsInDigit(c);
    LineReads(g, CensusBody(c));
    BodyStarts(c);
    EntryCensus(g, CensusBody(c));
    CensusReads(c);
  }

  lemma {:induction false} TrimDigit(s: string)
    requires s != "" && IsDigit(s[|s| - 1])
    ensures TrimCR(s) == s
  {
  }

  lemma EndsInDigit(c: Census)
    requires Countable(c)
    ensures TrimCR(CensusBody(c)) == CensusBody(c)
  {
    var d := Decimal(c.gateWaiting);
    var s := CensusBody(c);
    assert d + "" == d;
    assert s[|s| - 1] == d[|d| - 1];
    TrimDigit(s);
  }

  /** The session as the parser keeps it. */
  function Kept(s: string): Session {
    Session(TrimCR(s), Contains(TrimCR(s), " state=idle wait="))
  }

  lemma SessionReads(g: Result, s: string)
    ensures ReadLine(g, SessionLine(s)) == g.(sessions := g.sessions + [Kept(s)])
  {
    TrimConcat("session ", s);
    LineReads(g, "session " + s);
    var rest := "session " + TrimCR(s);
    assert rest[0] == 's' && rest[8..] == TrimCR(s);
  }

  function KeptAll(ss: seq<string>): seq<Session> {
    if ss == [] then [] else [Kept(ss[0])] + KeptAll(ss[1..])
  }

  lemma {:induction false} SessionsRead(g: Result, ss: seq<string>)
    ensures ReadLines(g, SessionLines(ss)) == g.(sessions := g.sessions + KeptAll(ss))
    decreases |ss|
  {
    if ss == [] {
      assert g.sessions + KeptAll(ss) == g.sessions;
    } else {
      SessionReads(g, ss[0]);
      var g1 := ReadLine(g, SessionLine(ss[0]));
      SessionsRead(g1, ss[1..]);
      KeptTail(g.sessions, ss);
    }
  }

  lemma KeptTail(k: seq<Session>, ss: seq<string>)
    requires ss != []
    ensures k + [Kept(ss[0])] + KeptAll(ss[1..]) == k + KeptAll(ss)
  {
  }

  /** What the census section of the log reads back as. */
  lemma CensusSectionReads(o: CensusOutcome)
    requires o.Counted? ==> Countable(o.census)
    requires o.CensusError? ==> OneLine(o.why)
    ensures ReadLines(EMPTY, CensusLines(o)) ==
      match o
      case Counted(c, ss) => EMPTY.(census := Some(c), sessions := KeptAll(ss))
      case CensusError(why) => EMPTY.(censusDetail := why)
  {
    match o
    case Counted(c, ss) =>
      var lines := CensusLines(o);
      assert lines[0] == Line(CensusBody(c)) && lines[1..] == SessionLines(ss);
      CensusLineReads(EMPTY, c);
      SessionsRead(EMPTY.(census := Some(c)), ss);
      assert EMPTY.sessions + KeptAll(ss) == KeptAll(ss);
    case CensusError(why) =>
      CensusErrorReads(EMPTY, why);
  }

  lemma SyncShownReads(g: Result, v: string)
    requires OneLine(v)
    ensures ReadLine(g, Line("synchronous_commit=" + v)) == g.(syncCommit := Some(v))
  {
    TrimConcat("synchronous_commit=", v);
    LineReads(g, "synchronous_commit=" + v);
    EntrySync(g, "synchronous_commit=" + v, v);
  }

  lemma EntrySync(g: Result, rest: string, v: string)
    requires rest == "synchronous_commit=" + v
    ensures ReadEntry(g, rest) == g.(syncCommit := Some(v))
  {
    assert rest[0] == 's' && rest[1] == 'y' && rest[18] == '=' && rest[19..] == v;
  }

  lemma SyncErrorReads(g: Result, why: string)
    requires OneLine(why)
    ensures ReadLine(g, Line("synchronous_commit failed " + why)) == g.(syncCommitDetail := why)
  {
    TrimConcat("synchronous_commit failed ", why);
    LineReads(g, "synchronous_commit failed " + why);
    EntrySyncError(g, "synchronous_commit failed " + why, why);
  }

  lemma EntrySyncError(g: Result, rest: string, why: string)
    requires rest == "synchronous_commit failed " + why
    ensures ReadEntry(g, rest) == g.(syncCommitDetail := why)
  {
    assert rest[26..] == why;
    assert rest[0] == 's';
    assert rest[1] == 'y';
  }

  lemma SyncReads(g: Result, o: SyncOutcome)
    requires match o case Shown(v) => OneLine(v) case SyncError(why) => OneLine(why)
    ensures ReadLines(g, SyncLines(o)) ==
      (match o case Shown(v) => g.(syncCommit := Some(v)) case SyncError(why) => g.(syncCommitDetail := why))
  {
    match o
    case Shown(v) => SyncShownReads(g, v);
    case SyncError(why) => SyncErrorReads(g, why);
  }

  lemma EntryCommit(g: Result, rest: string, v: string)
    requires rest == "commit " + v
    ensures ReadEntry(g, rest) ==
      match Cut(v, ' ')
      case None => g.(commit := v, commitDetail := "")
      case Some((c, d)) => g.(commit := c, commitDetail := d)
  {
    assert rest[7..] == v;
    assert rest[1] == 'o';
    assert !("census " <= rest) && !("census failed " <= rest);
    assert rest[0] == 'c';
    assert !("session " <= rest) && !("synchronous_commit failed " <= rest) && !("synchronous_commit=" <= rest);
  }

  lemma CommitEntry(g: Result, word: string, detail: string)
    requires ' ' !in word
    ensures ReadEntry(g, "commit " + CommitText(word, detail)) == g.(commit := word, commitDetail := detail)
  {
    EntryCommit(g, "commit " + CommitText(word, detail), CommitText(word, detail));
    if detail != "" {
      CutAt(CommitText(word, detail), word, detail, ' ');
    }
  }

  lemma CommitLineReads(g: Result, word: string, detail: string)
    requires ' ' !in word && word != "" && OneLine(word) && OneLine(detail)
    ensures ReadLine(g, Line("commit " + CommitText(word, detail))) == g.(commit := word, commitDetail := detail)
  {
    var text := CommitText(word, detail);
    if detail != "" {
      TrimConcat(word + [' '], detail);
      assert word + [' '] + detail == text;
    }
    TrimConcat("commit ", text);
    LineReads(g, "commit " + text);
    CommitEntry(g, word, detail);
  }

  lemma {:induction false} DecimalOneLine(p: string, n: nat)
    requires '\n' !in p
    ensures OneLine(p + Decimal(n)) && p + Decimal(n) != ""
  {
    var d := Decimal(n);
    assert (p + d)[|p + d| - 1] == d[|d| - 1];
    TrimDigit(p + d);
  }

  lemma CommitResultOneLine(c: CensusOutcome, o: CommitOutcome)
    requires c.Counted? ==> Countable(c.census)
    requires o.CommitError? ==> OneLine(o.why)
    ensures var (word, detail) := CommitResult(c, o);
      ' ' !in word && word != "" && OneLine(word) && OneLine(detail)
  {
    if c.Counted? {
      DecimalOneLine("syncrep=", c.census.syncRep);
      DecimalOneLine("gate_waiting=", c.census.gateWaiting);
    }
  }

  lemma CommitReads(g: Result, c: CensusOutcome, o: CommitOutcome)
    requires c.Counted? ==> Countable(c.census)
    requires o.CommitError? ==> OneLine(o.why)
    ensures ReadLines(g, CommitLines(c, o)) ==
      g.(commit := CommitResult(c, o).0, commitDetail := CommitResult(c, o).1)
  {
    var (word, detail) := CommitResult(c, o);
    CommitResultOneLine(c, o);
    CommitLineReads(g, word, detail);
    var ls := CommitLines(c, o);
    assert ls[1..] == [];
    assert ReadLines(ReadLine(g, ls[0]), []) == ReadLine(g, ls[0]);
  }

  lemma PassReads(g: Result)
    ensures ReadLines(g, [PASS]) == g.(pass := true)
    ensures ReadLines(g, [""]) == g
  {
    LineReads(g, "pass");
    assert [PASS][1..] == [] && [""][1..] == [];
    assert ReadLines(ReadLine(g, PASS), []) == ReadLine(g, PASS);
  }

  /** What the operator should learn from a run of the script. */
  function Expected(i: Inputs, o: Outcome): Result
    requires o.census.Counted? ==> Countable(o.census.census)
  {
    var (word, detail) := if i.commitTest then CommitResult(o.census, o.commit) else ("", "");
    Result(
      if o.census.Counted? then Some(o.census.census) else None,
      if o.census.Counted? then "" else o.census.why,
      if o.census.Counted? then KeptAll(o.census.sessions) else [],
      if i.expectLocal && o.sync.Shown? then Some(o.sync.value) else None,
      if i.expectLocal && o.sync.SyncError? then o.sync.why else "",
      word, detail, AllOK(i, o))
  }

  lemma FieldHasNoNewline(key: string, n: nat, rest: string)
    requires '\n' !in key && '\n' !in rest
    ensures '\n' !in NumField(key, n, rest)
  {
  }

  lemma BodyHasNoNewline(c: Census)
    requires Countable(c)
    ensures '\n' !in CensusBody(c)
  {
    var l5 := NumField("gate_waiting=", c.gateWaiting, "");
    var l4 := NumField("syncrep_since=", c.syncRepSince, l5);
    var l2 := NamedField(c.named, l4);
    var l1 := NumField("syncrep=", c.syncRep, l2);
    FieldHasNoNewline("gate_waiting=", c.gateWaiting, "");
    FieldHasNoNewline("syncrep_since=", c.syncRepSince, l5);
    assert '\n' !in l2;
    FieldHasNoNewline("syncrep=", c.syncRep, l2);
    FieldHasNoNewline("total=", c.total, l1);
  }

  lemma CheckLinesHaveNoNewline(i: Inputs, o: Outcome)
    requires Printable(o)
    ensures forall l :: l in CensusLines(o.census) ==> '\n' !in l
    ensures forall l :: l in SyncLines(o.sync) ==> '\n' !in l
    ensures forall l :: l in CommitLines(o.census, o.commit) ==> '\n' !in l
  {
    CommitResultOneLine(o.census, o.commit);
    if o.census.Counted? {
      BodyHasNoNewline(o.census.census);
    }
  }

  lemma {:induction false} NothingFiltered(ls: seq<string>)
    requires forall l :: l in ls ==> !Noise(l)
    ensures Printed(ls) == ls
  {
    if ls != [] {
      assert forall l :: l in ls[1..] ==> l in ls;
      NothingFiltered(ls[1..]);
    }
  }

  /** The script's own lines, with nothing between them, are a log of the run. */
  lemma QuietLog(i: Inputs, o: Outcome)
    requires Printable(o)
    ensures LogOf(i, o, ScriptLines(i, o))
  {
    CheckLinesHaveNoNewline(i, o);
    LinesSpeak(i, o);
    NothingFiltered(ScriptLines(i, o));
  }

  lemma LinesSpeak(i: Inputs, o: Outcome)
    requires o.census.Counted? ==> Countable(o.census.census)
    ensures forall l :: l in ScriptLines(i, o) ==> !Noise(l)
  {
    forall s: string ensures !Noise(Line(s)) {
      assert Line(s)[..6] == "gate: ";
    }
  }

  /** The parser reads over noise. */
  lemma {:induction false} NoiseIsSkipped(g: Result, ls: seq<string>)
    ensures ReadLines(g, ls) == ReadLines(g, Printed(ls))
    decreases |ls|
  {
    if ls != [] {
      NoiseIsSkipped(ReadLine(g, ls[0]), ls[1..]);
      if Noise(ls[0]) {
        TrimTakes(ls[0]);
        assert ReadLine(g, ls[0]) == g && Printed(ls) == Printed(ls[1..]);
      } else {
        assert Printed(ls)[1..] == Printed(ls[1..]);
      }
    }
  }

  lemma LogIsSections(i: Inputs, o: Outcome, ls: seq<string>,
                      a: seq<string>, b: seq<string>, c: seq<string>, d: seq<string>)
    requires Printable(o) && LogOf(i, o, ls)
    requires ScriptLines(i, o) == a + b + c + d
    ensures Parse(Terminated(ls, '\n')) ==
      ReadLines(ReadLines(ReadLines(ReadLines(ReadLines(EMPTY, a), b), c), d), [""])
  {
    SplitTerminated(ls, '\n');
    ReadLinesConcat(EMPTY, ls, [""]);
    NoiseIsSkipped(EMPTY, ls);
    ReadLinesConcat(EMPTY, a + b + c, d);
    ReadLinesConcat(EMPTY, a + b, c);
    ReadLinesConcat(EMPTY, a, b);
  }

  /** What the parser knows before the verdict line. */
  function Unjudged(i: Inputs, o: Outcome): Result
    requires o.census.Counted? ==> Countable(o.census.census)
  {
    Expected(i, o).(pass := false)
  }

  lemma AfterCensus(o: Outcome)
    requires Printable(o)
    ensures ReadLines(EMPTY, CensusLines(o.census)) == Unjudged(Inputs(false, false), o)
  {
    CensusSectionReads(o.census);
  }

  lemma AfterSync(i: Inputs, o: Outcome)
    requires Printable(o)
    ensures ReadLines(Unjudged(Inputs(false, false), o), if i.expectLocal then SyncLines(o.sync) else []) ==
      Unjudged(Inputs(false, i.expectLocal), o)
  {
    SyncReads(Unjudged(Inputs(false, false), o), o.sync);
  }

  lemma AfterCommit(i: Inputs, o: Outcome)
    requires Printable(o)
    ensures ReadLines(Unjudged(Inputs(false, i.expectLocal), o),
                      if i.commitTest then CommitLines(o.census, o.commit) else []) ==
      Unjudged(i, o)
  {
    CommitReads(Unjudged(Inputs(false, i.expectLocal), o), o.census, o.commit);
  }

  lemma AfterVerdict(i: Inputs, o: Outcome)
    requires Printable(o)
    ensures ReadLines(ReadLines(Unjudged(i, o), if AllOK(i, o) then [PASS] else []), [""]) == Expected(i, o)
  {
    PassReads(Unjudged(i, o));
    PassReads(Expected(i, o));
  }

  /** For every outcome of the checks, and whatever else went to the log, the parser recovers from the
      full log exactly what the script found: the census, the sessions, the setting, the commit result
      and the verdict. */
  lemma LogReadsBack(i: Inputs, o: Outcome, ls: seq<string>)
    requires Printable(o) && LogOf(i, o, ls)
    ensures Parse(Terminated(ls, '\n')) == Expected(i, o)
  {
    LogIsSections(i, o, ls,
      CensusLines(o.census),
      if i.expectLocal then SyncLines(o.sync) else [],
      if i.commitTest then CommitLines(o.census, o.commit) else [],
      if AllOK(i, o) then [PASS] else []);
    AfterCensus(o);
    AfterSync(i, o);
    AfterCommit(i, o);
    AfterVerdict(i, o);
  }

  /** A line that reports a check, told apart from gate: pass by its seventh character. */
  ghost predicate CheckLine(l: string) {
    |l| >= 8 && l[6] in {'c', 's'}
  }

  ghost predicate CensusReport(l: string) {
    |l| >= 8 && l[6] == 'c' && l[7] == 'e'
  }

  ghost predicate PassLine(l: string) {
    |l| >= 8 && l[6] == 'p'
  }

  lemma CensusLinesShape(o: CensusOutcome)
    requires o.Counted? ==> Countable(o.census)
    ensures |CensusLines(o)| >= 1
    ensures forall k :: 0 <= k < |CensusLines(o)| ==> CheckLine(CensusLines(o)[k])
    ensures forall k :: 0 < k < |CensusLines(o)| ==> !CensusReport(CensusLines(o)[k])
  {
    if o.Counted? {
      BodyStarts(o.census);
      assert Line(CensusBody(o.census))[6..] == CensusBody(o.census);
      var ss := SessionLines(o.sessions);
      assert forall k :: 0 <= k < |ss| ==> ss[k] in ss;
    }
  }

  lemma OtherLinesShape(o: Outcome)
    requires o.census.Counted? ==> Countable(o.census.census)
    ensures forall k :: 0 <= k < |SyncLines(o.sync)| ==>
              CheckLine(SyncLines(o.sync)[k]) && !CensusReport(SyncLines(o.sync)[k])
    ensures forall k :: 0 <= k < |CommitLines(o.census, o.commit)| ==>
      CheckLine(CommitLines(o.census, o.commit)[k]) && !CensusReport(CommitLines(o.census, o.commit)[k])
  {
    var l := CommitLines(o.census, o.commit)[0];
    assert l[6] == 'c';
    assert l[7] == 'o';
  }

  lemma CheckLinesShape(i: Inputs, o: Outcome)
    requires Printable(o)
    ensures |CheckLines(i, o)| >= 1
    ensures forall k :: 0 <= k < |CheckLines(i, o)| ==> CheckLine(CheckLines(i, o)[k])
    ensures forall k :: 0 < k < |CheckLines(i, o)| ==> !CensusReport(CheckLines(i, o)[k])
  {
    var a := CensusLines(o.census);
    var b := if i.expectLocal then SyncLines(o.sync) else [];
    var c := if i.commitTest then CommitLines(o.census, o.commit) else [];
    CensusLinesShape(o.census);
    OtherLinesShape(o);
    Shapes(a, b, c);
  }

  lemma Shapes(a: seq<string>, b: seq<string>, c: seq<string>)
    requires |a| >= 1
    requires forall k :: 0 <= k < |a| ==> CheckLine(a[k])
    requires forall k :: 0 < k < |a| ==> !CensusReport(a[k])
    requires forall k :: 0 <= k < |b| ==> CheckLine(b[k]) && !CensusReport(b[k])
    requires forall k :: 0 <= k < |c| ==> CheckLine(c[k]) && !CensusReport(c[k])
    ensures forall k :: 0 <= k < |a + b + c| ==> CheckLine((a + b + c)[k])
    ensures forall k :: 0 < k < |a + b + c| ==> !CensusReport((a + b + c)[k])
  {
  }

  lemma OnlyAllOKPrintsPass(i: Inputs, o: Outcome)
    requires Printable(o)
    ensures PASS in ScriptLines(i, o) <==> AllOK(i, o)
  {
    CheckLinesShape(i, o);
    assert PassLine(PASS);
  }

  /** The line that sets pass, and one that sets the census. */
  predicate PassEntry(l: string) { CutPrefix(TrimCR(l), "gate: ") == Some("pass") }

  predicate CensusEntry(l: string) {
    CutPrefix(TrimCR(l), "gate: ").Some? && "census " <= CutPrefix(TrimCR(l), "gate: ").value
  }

  /** A result field is set only by a line that carries it. */
  lemma {:induction false} WhoSet(g: Result, lines: seq<string>)
    ensures ReadLines(g, lines).pass && !g.pass ==> exists k :: 0 <= k < |lines| && PassEntry(lines[k])
    ensures ReadLines(g, lines).census.Some? && g.census.None? ==>
              exists k :: 0 <= k < |lines| && CensusEntry(lines[k])
    decreases |lines|
  {
    if lines != [] {
      LineSets(g, lines[0]);
      WhoSet(ReadLine(g, lines[0]), lines[1..]);
      assert forall k :: 0 <= k < |lines| - 1 ==> lines[1..][k] == lines[k + 1];
    }
  }

  lemma EntrySets(g: Result, rest: string)
    ensures ReadEntry(g, rest).pass && !g.pass ==> rest == "pass"
    ensures ReadEntry(g, rest).census.Some? && g.census.None? ==> "census " <= rest
  {
  }

  lemma LineSets(g: Result, l: string)
    ensures ReadLine(g, l).pass && !g.pass ==> PassEntry(l)
    ensures ReadLine(g, l).census.Some? && g.census.None? ==> CensusEntry(l)
  {
    var rest := CutPrefix(TrimCR(l), "gate: ");
    if rest.Some? {
      EntrySets(g, rest.value);
    }
  }

  /** Neither entry is noise, or the other. */
  lemma EntriesSpeak(l: string, full: string)
    requires l <= full
    ensures PassEntry(l) ==> !Noise(full) && PassLine(full) && "gate: pass" <= l
    ensures CensusEntry(l) ==> !Noise(full) && CensusReport(full) && !PassEntry(l)
  {
    var t := TrimCR(l);
    TrimTakes(l);
    if PassEntry(l) {
      assert t == "gate: " + "pass" == "gate: pass";
    } else if CensusEntry(l) {
      assert t[6] == 'c' && t[7] == 'e' && full[6] == t[6] && full[7] == t[7];
    }
  }

  lemma {:induction false} PrintedConcat(a: seq<string>, b: seq<string>)
    ensures Printed(a + b) == Printed(a) + Printed(b)
  {
    if a == [] {
      assert a + b == b;
    } else {
      PrintedConcat(a[1..], b);
      assert (a + b)[1..] == a[1..] + b;
      if !Noise(a[0]) {
        assert [a[0]] + (Printed(a[1..]) + Printed(b)) == ([a[0]] + Printed(a[1..])) + Printed(b);
      }
    }
  }

  lemma {:induction false} SilentIsNoise(ls: seq<string>, k: nat)
    requires Printed(ls) == [] && k < |ls|
    ensures Noise(ls[k])
  {
    if k > 0 {
      SilentIsNoise(ls[1..], k - 1);
    }
  }

  /** Where a line stands among the printed ones. */
  lemma PrintedAt(ls: seq<string>, k: nat) returns (n: nat)
    requires k < |ls| && !Noise(ls[k])
    ensures n < |Printed(ls)| && Printed(ls)[n] == ls[k] && (n == 0 ==> forall j :: 0 <= j < k ==> Noise(ls[j]))
  {
    n := |Printed(ls[..k])|;
    assert ls == ls[..k] + ([ls[k]] + ls[k + 1..]);
    PrintedConcat(ls[..k], [ls[k]] + ls[k + 1..]);
    assert ([ls[k]] + ls[k + 1..])[1..] == ls[k + 1..];
    if n == 0 {
      forall j | 0 <= j < k ensures Noise(ls[j]) {
        SilentIsNoise(ls[..k], j);
      }
    }
  }

  /** A line of a failing run's log that is cut only at its end reports no pass, and no census unless
      only noise comes before it. */
  lemma LaterLine(i: Inputs, o: Outcome, ls: seq<string>, k: nat, l: string)
    requires Printable(o) && !AllOK(i, o) && LogOf(i, o, ls)
    requires k <= |ls| && l <= (ls + [""])[k]
    ensures !PassEntry(l) && (CensusEntry(l) ==> forall j :: 0 <= j < k ==> Noise(ls[j]))
  {
    EntriesSpeak(l, (ls + [""])[k]);
    if k < |ls| && !Noise(ls[k]) {
      var n := PrintedAt(ls, k);
      CheckLinesShape(i, o);
      assert CheckLine(CheckLines(i, o)[n]);
    }
  }

  lemma {:induction false} ContainsAt(s: string, t: string, a: nat)
    requires a <= |s| && t <= s[a..]
    ensures Contains(s, t)
    decreases |s|
  {
    if a > 0 {
      assert s[1..][a - 1..] == s[a..];
      ContainsAt(s[1..], t, a - 1);
    }
  }

  /** Noise ahead of everything the script printed never spells its verdict. */
  ghost predicate HeadIsQuiet(ls: seq<string>) {
    forall k :: 0 <= k < |ls| && (forall j :: 0 <= j <= k ==> Noise(ls[j])) ==> !Contains(ls[k], "gate: pass")
  }

  lemma WithinContains(part: string, whole: string, t: string)
    requires Within(part, whole) && t <= part
    ensures Contains(whole, t)
  {
    var a: nat :| a <= |whole| && part <= whole[a..];
    ContainsAt(whole, t, a);
  }

  /** A part of a line in the head never spells the verdict. */
  lemma HeadPart(ls: seq<string>, p: nat, part: string)
    requires HeadIsQuiet(ls) && p < |ls| && Within(part, ls[p]) && forall j :: 0 <= j <= p ==> Noise(ls[j])
    ensures !PassEntry(part)
  {
    if PassEntry(part) {
      EntriesSpeak(part, part);
      WithinContains(part, ls[p], "gate: pass");
    }
  }

  /** The first piece of a cut reports no pass if a later one reports the census. */
  lemma FirstPiece(i: Inputs, o: Outcome, ls: seq<string>, cut: seq<string>, p: nat, b: nat)
    requires Printable(o) && !AllOK(i, o) && LogOf(i, o, ls) && HeadIsQuiet(ls)
    requires PartOf(cut, ls + [""], p) && 0 < b < |cut| && CensusEntry(cut[b])
    ensures !PassEntry(cut[0])
  {
    var full := ls + [""];
    LaterLine(i, o, ls, p + b, cut[b]);
    assert full[p] == ls[p];
    HeadPart(ls, p, cut[0]);
  }

  /** Two kinds of pieces never meet, given where each can be. */
  lemma NeverBoth(pass: string -> bool, census: string -> bool, cut: seq<string>)
    requires forall a :: 0 < a < |cut| ==> !pass(cut[a])
    requires forall b :: 0 < b < |cut| && census(cut[b]) ==> !pass(cut[0])
    requires |cut| > 0 ==> !(pass(cut[0]) && census(cut[0]))
    ensures (exists a :: 0 <= a < |cut| && pass(cut[a])) ==> !(exists b :: 0 <= b < |cut| && census(cut[b]))
  {
  }

  /** Of the pieces of a cut, none reports a pass beside one that reports the census. */
  lemma PiecesDisagree(i: Inputs, o: Outcome, ls: seq<string>, cut: seq<string>, p: nat)
    requires Printable(o) && !AllOK(i, o) && LogOf(i, o, ls) && HeadIsQuiet(ls)
    requires PartOf(cut, ls + [""], p)
    ensures (exists a :: 0 <= a < |cut| && PassEntry(cut[a])) ==> !(exists b :: 0 <= b < |cut| && CensusEntry(cut[b]))
  {
    forall a | 0 < a < |cut| ensures !PassEntry(cut[a]) {
      LaterLine(i, o, ls, p + a, cut[a]);
    }
    forall b | 0 < b < |cut| && CensusEntry(cut[b]) ensures !PassEntry(cut[0]) {
      FirstPiece(i, o, ls, cut, p, b);
    }
    EntriesSpeak(cut[0], cut[0]);
    NeverBoth(PassEntry, CensusEntry, cut);
  }

  /** No part of a failing run's log reads as a pass, wherever it is cut and whatever the current
      inputs are: not a prefix, not a tail, not through an application_name on a session line, and not
      through any other line between the printed ones. */
  lemma NoCutReadsAsPass(i: Inputs, o: Outcome, ls: seq<string>, from: nat, to: nat, current: Inputs)
    requires Printable(o) && !AllOK(i, o) && LogOf(i, o, ls) && HeadIsQuiet(ls)
    requires from <= to <= |Terminated(ls, '\n')|
    ensures !Passed(Parse(Terminated(ls, '\n')[from..to]), current)
  {
    var log := Terminated(ls, '\n');
    var cut := Split(log[from..to], '\n');
    SplitTerminated(ls, '\n');
    var p := SplitPart(log, from, to, '\n');
    WhoSet(EMPTY, cut);
    PiecesDisagree(i, o, ls, cut, p);
  }

  lemma {:induction false} PassStays(g: Result, h: Result, ls: seq<string>)
    requires g == h.(pass := true)
    ensures ReadLines(g, ls) == ReadLines(h, ls).(pass := true)
    decreases |ls|
  {
    if ls != [] {
      PassStays(ReadLine(g, ls[0]), ReadLine(h, ls[0]), ls[1..]);
    }
  }

  const SPOILER := "! gate: pass"

  lemma SpoiledText(ls: seq<string>)
    ensures Terminated([SPOILER] + ls, '\n')[2..] == Terminated([PASS] + ls, '\n')
  {
    assert ([SPOILER] + ls)[1..] == ls && ([PASS] + ls)[1..] == ls && SPOILER[2..] == PASS;
    assert Terminated([SPOILER] + ls, '\n') == SPOILER + ['\n'] + Terminated(ls, '\n');
    assert Terminated([PASS] + ls, '\n') == PASS + ['\n'] + Terminated(ls, '\n');
  }

  lemma VerdictAhead(ls: seq<string>)
    requires forall l :: l in ls ==> '\n' !in l
    ensures Parse(Terminated([PASS] + ls, '\n')) == Parse(Terminated(ls, '\n')).(pass := true)
  {
    SplitTerminated([PASS] + ls, '\n');
    SplitTerminated(ls, '\n');
    assert [PASS] + ls + [""] == [PASS] + (ls + [""]);
    PassReads(EMPTY);
    ReadLinesConcat(EMPTY, [PASS], ls + [""]);
    PassStays(EMPTY.(pass := true), EMPTY, ls + [""]);
  }

  /** The head has to be quiet: behind a line that ends in the verdict, the tail of a run that found no
      session reads as a pass of the census alone. */
  lemma SpoiledHeadReadsAsPass(i: Inputs, o: Outcome, ls: seq<string>)
    requires Printable(o) && LogOf(i, o, ls) && o.census.Counted? && o.census.census.total == 0
    ensures LogOf(i, o, [SPOILER] + ls)
    ensures Passed(Parse(Terminated([SPOILER] + ls, '\n')[2..]), Inputs(false, false))
  {
    assert ([SPOILER] + ls)[1..] == ls;
    SpoiledText(ls);
    VerdictAhead(ls);
    LogReadsBack(i, o, ls);
  }

  /** passed holds on the full log exactly when the script prints gate: pass. */
  lemma PassedIffScriptPasses(i: Inputs, o: Outcome, ls: seq<string>)
    requires Printable(o) && LogOf(i, o, ls)
    ensures Passed(Parse(Terminated(ls, '\n')), i) <==> PASS in ScriptLines(i, o)
  {
    LogReadsBack(i, o, ls);
    OnlyAllOKPrintsPass(i, o);
  }
}
