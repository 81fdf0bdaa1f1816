/** The preflight's table audits: the scope that clone.filters renders to, against what the copy and
    the publication really select (internal/controller/resources.go). */
module TableScope {
  import opened Text

  /** clone.filters, as far as tables go; a Migration without filters has none. */
  datatype Filters = Filters(
    includeSchemas: seq<string>, includeTables: seq<string>,
    excludeSchemas: seq<string>, excludeTables: seq<string>, excludeData: seq<string>)

  const NO_FILTERS := Filters([], [], [], [], [])

  /** [schema, table], with no table for a whole schema. */
  datatype Pair = Pair(schema: string, table: Option<string>)

  datatype Scope = Scope(
    schemas: seq<Pair>, tables: seq<Pair>, publish: seq<Pair>, exclude: seq<Pair>, skipData: seq<Pair>)

  // ------------------------------------------------------------------ rendering

  predicate Upper(c: char) { 'A' <= c <= 'Z' }

  /** The entry holds a pattern or a quote, is an unqualified table, or a schema name that folds. */
  predicate Unmappable(e: string, qualified: bool) {
    '~' in e || '"' in e || (qualified && '.' !in e) || (!qualified && exists c :: c in e && Upper(c))
  }

  function Mapped(e: string, qualified: bool): Pair
    requires !Unmappable(e, qualified)
  {
    if qualified then
      var p := Cut(e, '.').value;
      Pair(p.0, Some(p.1))
    else Pair(e, None)
  }

  /** scopeEntries: the pairs of the mappable entries, and whether all were. */
  function ScopeEntries(es: seq<string>, qualified: bool): (seq<Pair>, bool) {
    if es == [] then ([], true)
    else
      var (ps, ok) := ScopeEntries(es[..|es| - 1], qualified);
      var e := es[|es| - 1];
      if Unmappable(e, qualified) then (ps, false) else (ps + [Mapped(e, qualified)], ok)
  }

  method RenderEntries(es: seq<string>, qualified: bool) returns (ps: seq<Pair>, ok: bool)
    ensures (ps, ok) == ScopeEntries(es, qualified)
  {
    ps, ok := [], true;
    var i := 0;
    while i < |es|
      invariant 0 <= i <= |es| && (ps, ok) == ScopeEntries(es[..i], qualified)
    {
      var e := es[i];
      assert es[..i + 1][..i] == es[..i];
      if Folds(e, qualified) {
        ok := false;
      } else {
        ps := ps + [Mapped(e, qualified)];
      }
      i := i + 1;
    }
    assert es[..i] == es;
  }

  /** Unmappable, as the code tests it. */
  predicate Folds(e: string, qualified: bool)
    ensures Folds(e, qualified) == Unmappable(e, qualified)
  {
    '~' in e || '"' in e || (qualified && Cut(e, '.').None?) || (!qualified && HasUpper(e))
  }

  predicate HasUpper(e: string)
    ensures HasUpper(e) <==> exists c :: c in e && Upper(c)
  {
    e != "" && (Upper(e[0]) || HasUpper(e[1..]))
  }

  /** tableScope: an entry that cannot be matched exactly voids its include list, both lists for the
      publication, and drops out of an exclude list. */
  function Render(f: Filters): Scope {
    var (schemas, okS) := ScopeEntries(f.includeSchemas, false);
    var (tables, okT) := ScopeEntries(f.includeTables, true);
    Scope(if okS then schemas else [], if okT then tables else [],
          if okS && okT && |tables| > 0 then schemas + tables else [],
          ScopeEntries(f.excludeSchemas, false).0 + ScopeEntries(f.excludeTables, true).0,
          ScopeEntries(f.excludeData, true).0)
  }

  method RenderScope(f: Option<Filters>) returns (scope: Scope)
    ensures scope == Render(if f.Some? then f.value else NO_FILTERS)
  {
    scope := Scope([], [], [], [], []);
    if f.None? {
      return;
    }
    var schemas, okS := RenderEntries(f.value.includeSchemas, false);
    var tables, okT := RenderEntries(f.value.includeTables, true);
    if okS {
      scope := scope.(schemas := schemas);
    }
    if okT {
      scope := scope.(tables := tables);
    }
    if okS && okT && |tables| > 0 {
      scope := scope.(publish := schemas + tables);
    }
    var ignored: bool;
    schemas, ignored := RenderEntries(f.value.excludeSchemas, false);
    tables, ignored := RenderEntries(f.value.excludeTables, true);
    scope := scope.(exclude := schemas + tables);
    var skip, _ := RenderEntries(f.value.excludeData, true);
    scope := scope.(skipData := skip);
  }

  // ------------------------------------------------------------------ the audits' queries

  datatype Relation = Relation(schema: string, name: string)

  /** coalesce(table, name) = name. */
  predicate PairCovers(p: Pair, r: Relation) {
    p.schema == r.schema && (p.table.Some? ==> p.table.value == r.name)
  }

  predicate Covered(ps: seq<Pair>, r: Relation) {
    exists p :: p in ps && PairCovers(p, r)
  }

  /** The copy's scope: the includes intersect, on the relation's own name. */
  predicate CopyAudited(s: Scope, r: Relation) {
    (s.schemas == [] || Covered(s.schemas, r)) && (s.tables == [] || Covered(s.tables, r)) && !Covered(s.exclude, r)
  }

  /** The row-level security audit leaves out the tables whose data is skipped. */
  predicate DataAudited(s: Scope, r: Relation) {
    CopyAudited(s, r) && !Covered(s.skipData, r)
  }

  /** The publication's scope: the entries are ORed over the relation and its partitioned ancestors. */
  predicate PublishAudited(s: Scope, r: Relation, ancestors: set<Relation>) {
    (s.publish == [] || exists a :: a in ancestors + {r} && Covered(s.publish, a)) && !Covered(s.exclude, r)
  }

  // ------------------------------------------------------------------ what is really selected

  /** What each entry matches in the source: the patterns, quotes and folding of another program. */
  datatype Meaning = Meaning(schema: (string, string) -> bool, table: (string, string, string) -> bool)

  /** On the entries the scope can map, the meaning is the exact name. */
  ghost predicate Agrees(i: Meaning) {
    && (forall e, n :: !Unmappable(e, false) ==> (i.schema(e, n) <==> n == e))
    && (forall e, n, t :: !Unmappable(e, true) ==> (i.table(e, n, t) <==> Mapped(e, true) == Pair(n, Some(t))))
  }

  predicate AnySchema(i: Meaning, es: seq<string>, r: Relation) {
    exists e :: e in es && i.schema(e, r.schema)
  }

  predicate AnyTable(i: Meaning, es: seq<string>, r: Relation) {
    exists e :: e in es && i.table(e, r.schema, r.name)
  }

  predicate Excluded(i: Meaning, f: Filters, r: Relation) {
    AnySchema(i, f.excludeSchemas, r) || AnyTable(i, f.excludeTables, r)
  }

  predicate Copied(i: Meaning, f: Filters, r: Relation) {
    (f.includeSchemas == [] || AnySchema(i, f.includeSchemas, r)) &&
    (f.includeTables == [] || AnyTable(i, f.includeTables, r)) && !Excluded(i, f, r)
  }

  predicate DataCopied(i: Meaning, f: Filters, r: Relation) {
    Copied(i, f, r) && !AnyTable(i, f.excludeData, r)
  }

  /** Schema includes count only beside a table include; alone they publish every table. */
  predicate Published(i: Meaning, f: Filters, r: Relation, ancestors: set<Relation>) {
    (f.includeTables == [] ||
     exists a :: a in ancestors + {r} && (AnySchema(i, f.includeSchemas, a) || AnyTable(i, f.includeTables, a))) &&
    !Excluded(i, f, r)
  }

  // ------------------------------------------------------------------ entries and pairs

  lemma {:induction false} PairsAreMapped(es: seq<string>, q: bool)
    ensures forall p :: p in ScopeEntries(es, q).0 <==> exists e :: e in es && !Unmappable(e, q) && p == Mapped(e, q)
    ensures ScopeEntries(es, q).1 <==> forall e :: e in es ==> !Unmappable(e, q)
    ensures ScopeEntries(es, q).1 ==> |ScopeEntries(es, q).0| == |es|
  {
    if es != [] {
      var front, e := es[..|es| - 1], es[|es| - 1];
      PairsAreMapped(front, q);
      assert es == front + [e];
      forall x ensures x in es <==> x in front || x == e {
      }
    }
  }

  /** A mapped entry covers exactly what it means. */
  lemma MappedMeans(i: Meaning, e: string, q: bool, r: Relation)
    requires Agrees(i) && !Unmappable(e, q)
    ensures PairCovers(Mapped(e, q), r) <==> if q then i.table(e, r.schema, r.name) else i.schema(e, r.schema)
  {
    if q {
      assert i.table(e, r.schema, r.name) <==> Mapped(e, true) == Pair(r.schema, Some(r.name));
    } else {
      assert i.schema(e, r.schema) <==> r.schema == e;
    }
  }

  predicate Any(i: Meaning, es: seq<string>, q: bool, r: Relation) {
    if q then AnyTable(i, es, r) else AnySchema(i, es, r)
  }

  /** The pairs of a list never cover more than its entries mean, and the same when all map. */
  lemma CoveredIsMeant(i: Meaning, es: seq<string>, q: bool, r: Relation)
    requires Agrees(i)
    ensures Covered(ScopeEntries(es, q).0, r) ==> Any(i, es, q, r)
    ensures ScopeEntries(es, q).1 ==> (Covered(ScopeEntries(es, q).0, r) <==> Any(i, es, q, r))
  {
    var ps := ScopeEntries(es, q).0;
    PairsAreMapped(es, q);
    if Covered(ps, r) {
      var p :| p in ps && PairCovers(p, r);
      var e :| e in es && !Unmappable(e, q) && p == Mapped(e, q);
      MappedMeans(i, e, q, r);
    }
    if ScopeEntries(es, q).1 && Any(i, es, q, r) {
      var e :| e in es && if q then i.table(e, r.schema, r.name) else i.schema(e, r.schema);
      MappedMeans(i, e, q, r);
      assert Mapped(e, q) in ps;
    }
  }

  lemma CoveredConcat(a: seq<Pair>, b: seq<Pair>, r: Relation)
    ensures Covered(a + b, r) <==> Covered(a, r) || Covered(b, r)
  {
    if Covered(a, r) {
      var p :| p in a && PairCovers(p, r);
      assert p in a + b;
    }
    if Covered(b, r) {
      var p :| p in b && PairCovers(p, r);
      assert p in a + b;
    }
  }

  /** An exclude list that lost its unmappable entries excludes no more than the real one. */
  lemma ExcludeIsMeant(i: Meaning, f: Filters, r: Relation)
    requires Agrees(i)
    ensures Covered(Render(f).exclude, r) ==> Excluded(i, f, r)
    ensures ScopeEntries(f.excludeSchemas, false).1 && ScopeEntries(f.excludeTables, true).1 ==>
              (Covered(Render(f).exclude, r) <==> Excluded(i, f, r))
  {
    CoveredConcat(ScopeEntries(f.excludeSchemas, false).0, ScopeEntries(f.excludeTables, true).0, r);
    CoveredIsMeant(i, f.excludeSchemas, false, r);
    CoveredIsMeant(i, f.excludeTables, true, r);
  }

  // ------------------------------------------------------------------ the audits cover the selection

  predicate AllMap(f: Filters) {
    ScopeEntries(f.includeSchemas, false).1 && ScopeEntries(f.includeTables, true).1 &&
    ScopeEntries(f.excludeSchemas, false).1 && ScopeEntries(f.excludeTables, true).1 &&
    ScopeEntries(f.excludeData, true).1
  }

  /** Every table the copy selects is in the scope the audit reads, whatever the entries that cannot
      be matched exactly mean; and when all can, the scope is the selection. */
  lemma CopyAuditCovers(i: Meaning, f: Filters, r: Relation)
    requires Agrees(i)
    ensures Copied(i, f, r) ==> CopyAudited(Render(f), r)
    ensures AllMap(f) ==> (CopyAudited(Render(f), r) <==> Copied(i, f, r))
  {
    PairsAreMapped(f.includeSchemas, false);
    PairsAreMapped(f.includeTables, true);
    CoveredIsMeant(i, f.includeSchemas, false, r);
    CoveredIsMeant(i, f.includeTables, true, r);
    ExcludeIsMeant(i, f, r);
  }

  /** The same for the tables whose rows are copied. */
  lemma DataAuditCovers(i: Meaning, f: Filters, r: Relation)
    requires Agrees(i)
    ensures DataCopied(i, f, r) ==> DataAudited(Render(f), r)
    ensures AllMap(f) ==> (DataAudited(Render(f), r) <==> DataCopied(i, f, r))
  {
    CopyAuditCovers(i, f, r);
    CoveredIsMeant(i, f.excludeData, true, r);
  }

  lemma PublishEntry(i: Meaning, f: Filters, a: Relation)
    requires Agrees(i) && Render(f).publish != []
    ensures f.includeTables != []
    ensures Covered(Render(f).publish, a) <==> AnySchema(i, f.includeSchemas, a) || AnyTable(i, f.includeTables, a)
  {
    PairsAreMapped(f.includeTables, true);
    CoveredConcat(ScopeEntries(f.includeSchemas, false).0, ScopeEntries(f.includeTables, true).0, a);
    CoveredIsMeant(i, f.includeSchemas, false, a);
    CoveredIsMeant(i, f.includeTables, true, a);
  }

  lemma PublishAnyEntry(i: Meaning, f: Filters, r: Relation, ancestors: set<Relation>)
    requires Agrees(i) && Render(f).publish != []
    ensures (exists a :: a in ancestors + {r} && Covered(Render(f).publish, a)) <==>
            (exists a :: a in ancestors + {r} && (AnySchema(i, f.includeSchemas, a) || AnyTable(i, f.includeTables, a)))
  {
    forall a | a in ancestors + {r}
      ensures Covered(Render(f).publish, a) <==> AnySchema(i, f.includeSchemas, a) || AnyTable(i, f.includeTables, a)
    {
      PublishEntry(i, f, a);
    }
  }

  /** Every table the publication lists, by itself or by a partitioned ancestor, is in the scope. */
  lemma PublishAuditCovers(i: Meaning, f: Filters, r: Relation, ancestors: set<Relation>)
    requires Agrees(i)
    ensures Published(i, f, r, ancestors) ==> PublishAudited(Render(f), r, ancestors)
    ensures AllMap(f) ==> (PublishAudited(Render(f), r, ancestors) <==> Published(i, f, r, ancestors))
  {
    ExcludeIsMeant(i, f, r);
    PairsAreMapped(f.includeTables, true);
    if Render(f).publish != [] {
      PublishAnyEntry(i, f, r, ancestors);
      PublishEntry(i, f, r);
    }
  }
}
