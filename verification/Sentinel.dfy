/** Replication samples: LSN texts, the byte lag between them with Go's uint64 and int64 written
    out, and the status block they become (internal/sentinel/sentinel.go). */
module Sentinel {
  import opened Text

  const TWO32: int := 0x1_0000_0000
  const TWO63: int := 0x8000_0000_0000_0000
  const TWO64: int := 0x1_0000_0000_0000_0000

  predicate IsHex(c: char) { '0' <= c <= '9' || 'a' <= c <= 'f' || 'A' <= c <= 'F' }

  function HexValue(c: char): (v: nat)
    requires IsHex(c)
    ensures v < 16
  {
    if c <= '9' then c as int - '0' as int
    else if c <= 'F' then c as int - 'A' as int + 10
    else c as int - 'a' as int + 10
  }

  function HexNumber(s: string): nat
    requires forall k :: 0 <= k < |s| ==> IsHex(s[k])
  {
    if s == "" then 0 else HexNumber(s[..|s| - 1]) * 16 + HexValue(s[|s| - 1])
  }

  /** strconv.ParseUint(s, 16, 32). */
  function ParseUint32(s: string): Option<nat> {
    if s != "" && (forall k :: 0 <= k < |s| ==> IsHex(s[k])) && HexNumber(s) < TWO32
    then Some(HexNumber(s)) else None
  }

  /** A PostgreSQL LSN (X/Y, hex) as a byte position. */
  function ParseLSN(lsn: string): (r: Option<nat>)
    ensures r.Some? ==> r.value < TWO64
  {
    match Cut(TrimSpace(lsn), '/')
    case None => None
    case Some((hi, lo)) =>
      match ParseUint32(hi)
      case None => None
      case Some(h) =>
        match ParseUint32(lo)
        case None => None
        case Some(l) => Some(h * TWO32 + l)
  }

  const ZERO_LSN := "0/0"

  predicate LSNSet(lsn: string) { lsn != "" && lsn != ZERO_LSN }

  /** The conversion int64(x) of a uint64. */
  function ToInt64(x: int): int
    requires 0 <= x < TWO64
  {
    if x < TWO63 then x else x - TWO64
  }

  datatype State = State(writeLSN: string, replayLSN: string, endpos: string, sourceHead: string)

  function Lag(s: State): int {
    match (ParseLSN(s.sourceHead), ParseLSN(s.replayLSN))
    case (Some(head), Some(replay)) => if head < replay then -1 else ToInt64(head - replay)
    case _ => -1
  }

  datatype Replication = Replication(writeLSN: string, replayLSN: string, endpos: string, lag: Option<nat>)

  function ToStatus(s: State): Replication {
    Replication(
      if LSNSet(s.writeLSN) then s.writeLSN else "",
      if LSNSet(s.replayLSN) then s.replayLSN else "",
      if LSNSet(s.endpos) then s.endpos else "",
      if Lag(s) >= 0 then Some(Lag(s)) else None)
  }

  /** The published lag is the exact distance between the two positions, and it is absent exactly
      when a text does not parse, the head precedes replay, or the distance needs 64 bits. */
  lemma LagIsExact(s: State)
    ensures var head, replay := ParseLSN(s.sourceHead), ParseLSN(s.replayLSN);
      match ToStatus(s).lag
      case Some(d) => head.Some? && replay.Some? && d == head.value - replay.value && d < TWO63
      case None => head.None? || replay.None? || head.value < replay.value || head.value - replay.value >= TWO63
  {
    assert TWO63 + TWO63 == TWO64;
  }

  // ------------------------------------------------------------------ PostgreSQL's own rendering

  function HexDigit(v: nat): (c: char)
    requires v < 16
    ensures IsHex(c) && HexValue(c) == v
  {
    if v < 10 then '0' + v as char else 'A' + (v - 10) as char
  }

  function Hex(n: nat): (s: string)
    ensures s != "" && forall k :: 0 <= k < |s| ==> IsHex(s[k])
  {
    if n < 16 then [HexDigit(n)] else Hex(n / 16) + [HexDigit(n % 16)]
  }

  function FormatLSN(v: nat): string
    requires v < TWO64
  {
    Hex(v / TWO32) + (['/'] + Hex(v % TWO32))
  }

  lemma {:induction false} HexReads(n: nat)
    ensures HexNumber(Hex(n)) == n
  {
    var s := Hex(n);
    if n < 16 {
      assert s[..0] == "";
    } else {
      HexReads(n / 16);
      assert s[..|s| - 1] == Hex(n / 16);
    }
  }

  /** Every 64-bit position survives PostgreSQL's text form. */
  lemma LSNReadsBack(v: nat)
    requires v < TWO64
    ensures ParseLSN(FormatLSN(v)) == Some(v)
  {
    var hi, lo := Hex(v / TWO32), Hex(v % TWO32);
    var s := FormatLSN(v);
    assert s[0] == hi[0] && !IsSpace(s[0]);
    assert s[|s| - 1] == lo[|lo| - 1] && !IsSpace(s[|s| - 1]);
    assert TrimSpace(s) == s;
    assert '/' !in hi;
    CutAt(s, hi, lo, '/');
    HexReads(v / TWO32);
    HexReads(v % TWO32);
  }

  // ------------------------------------------------------------------ the sample's labelled values

  /** A "key=value" field whose value is an LSN. */
  function Labelled(f: string): Option<(string, string)> {
    match Cut(f, '=')
    case None => None
    case Some((k, v)) => if ParseLSN(v).Some? then Some((k, v)) else None
  }

  /** The value the last well-formed field gives key; "" when there is none. */
  function LastValue(fields: seq<string>, key: string): string {
    if fields == [] then ""
    else
      var got := Labelled(fields[|fields| - 1]);
      if got.Some? && got.value.0 == key then got.value.1 else LastValue(fields[..|fields| - 1], key)
  }

  /** A missing slot row is no sample; the endpos is never read from the worker. */
  function SampleOf(fields: seq<string>): Option<State> {
    if LastValue(fields, "write_lsn") == "" then None
    else
      Some(State(LastValue(fields, "write_lsn"), LastValue(fields, "replay_lsn"), "", LastValue(fields, "source_head")))
  }

  function Get(vals: map<string, string>, key: string): string {
    if key in vals then vals[key] else ""
  }

  function Put(vals: map<string, string>, f: string): map<string, string> {
    match Labelled(f) case None => vals case Some((k, v)) => vals[k := v]
  }

  lemma PutStep(vals: map<string, string>, fields: seq<string>, i: nat, key: string)
    requires i < |fields| && Get(vals, key) == LastValue(fields[..i], key)
    ensures Get(Put(vals, fields[i]), key) == LastValue(fields[..i + 1], key)
  {
    assert fields[..i + 1][..i] == fields[..i];
  }

  method ParseSample(out: string) returns (st: Option<State>)
    ensures st == SampleOf(Fields(out))
  {
    var vals: map<string, string> := map[];
    var fields := Fields(out);
    for i := 0 to |fields|
      invariant Get(vals, "write_lsn") == LastValue(fields[..i], "write_lsn")
      invariant Get(vals, "replay_lsn") == LastValue(fields[..i], "replay_lsn")
      invariant Get(vals, "source_head") == LastValue(fields[..i], "source_head")
    {
      PutStep(vals, fields, i, "write_lsn");
      PutStep(vals, fields, i, "replay_lsn");
      PutStep(vals, fields, i, "source_head");
      vals := Put(vals, fields[i]);
    }
    assert fields[..|fields|] == fields;
    if Get(vals, "write_lsn") == "" {
      st := None;
    } else {
      st := Some(State(Get(vals, "write_lsn"), Get(vals, "replay_lsn"), "", Get(vals, "source_head")));
    }
  }

  lemma {:induction false} LastValueParses(fields: seq<string>, key: string)
    ensures LastValue(fields, key) == "" || ParseLSN(LastValue(fields, key)).Some?
  {
    if fields != [] {
      LastValueParses(fields[..|fields| - 1], key);
    }
  }

  /** Whatever psql prints, a sample holds a write position that parses and never an endpos, and it
      publishes a lag only from two positions that both parse. */
  lemma SampleIsWellFormed(out: string)
    ensures var st := SampleOf(Fields(out));
      st.Some? ==>
        && ParseLSN(st.value.writeLSN).Some? && st.value.endpos == "" && ToStatus(st.value).endpos == ""
        && (st.value.replayLSN == "" || st.value.sourceHead == "" ==> ToStatus(st.value).lag.None?)
  {
    LastValueParses(Fields(out), "write_lsn");
    EmptyIsNoLSN();
  }

  lemma EmptyIsNoLSN()
    ensures ParseLSN("").None?
  {
  }
}
