/**
 * The Oracle dialect: Postgres's quoting and handler structure, with its own
 * renderers. Paging selects use `OUTER/CROSS APPLY` and `FETCH FIRST/NEXT`,
 * composite keys nest binary CONCATs, and a batch becomes a UNION of
 * `SELECT v AS "value" FROM DUAL` rows instead of a VALUES list.
 */
module Oracle {
  import opened Wrappers
  import opened Text
  import opened Classes
  import opened Plan
  import Pg
  import UnlimitedLimitIsMaxint

  const Name: string := "oracle"

  /**
   * `class Dialect extends UnlimitedLimitIsMaxint(PostgresDialect)`: its own
   * name, composite key and handlers; `quote` is inherited.
   */
  const Class: Proto :=
    Extend(UnlimitedLimitIsMaxint.Apply(Pg.Class),
           map[Member.Name := OracleCode, Member.CompositeKey := OracleCode,
               Member.HandlePaginationAtRoot := OracleCode,
               Member.HandleJoinedOneToManyPaginated := OracleCode,
               Member.HandleJoinedManyToManyPaginated := OracleCode,
               Member.HandleBatchedOneToManyPaginated := OracleCode,
               Member.HandleBatchedManyToManyPaginated := OracleCode])

  /** Identifiers are quoted by the inherited Postgres `quote`. */
  function Quote(s: string): (r: string) {
    Pg.Quote(s)
  }

  // ---- composite keys ---------------------------------------------------------

  /** `"CONCAT(" * n`. */
  function RepeatConcatOpen(n: nat): (r: string)
    ensures |r| == 7 * n
  {
    if n == 0 then "" else RepeatConcatOpen(n - 1) + "CONCAT("
  }

  /** `, k1), k2)…`: each key closes one CONCAT. */
  function ClosingArgs(keys: seq<string>): (r: string) {
    if |keys| == 0 then "" else ", " + keys[0] + ")" + ClosingArgs(keys[1..])
  }

  /**
   * `recursiveConcat(keys)`: folds the first two keys into one binary CONCAT
   * until one expression is left. With no key it yields `keys[0]`, that is
   * `undefined`.
   */
  function RecursiveConcat(keys: seq<string>): (r: Option<string>)
    ensures r.Some? <==> |keys| >= 1
    ensures |keys| == 1 ==> r == Some(keys[0])
    decreases |keys|
  {
    if |keys| <= 1 then
      if |keys| == 1 then Some(keys[0]) else None
    else
      RecursiveConcat(["CONCAT(" + keys[0] + ", " + keys[1] + ")"] + keys[2..])
  }

  /**
   * The closed form: n keys give exactly n - 1 CONCATs, all opened in front
   * of the first key, and the remaining keys follow in order, each closing one.
   */
  lemma {:induction false} RecursiveConcatClosedForm(keys: seq<string>)
    requires |keys| >= 1
    ensures RecursiveConcat(keys) == Some(RepeatConcatOpen(|keys| - 1) + keys[0] + ClosingArgs(keys[1..]))
    decreases |keys|
  {
    if |keys| == 1 {
      assert keys[1..] == [];
      assert RepeatConcatOpen(0) + keys[0] + ClosingArgs([]) == keys[0];
    } else {
      var folded := ["CONCAT(" + keys[0] + ", " + keys[1] + ")"] + keys[2..];
      RecursiveConcatClosedForm(folded);
      assert folded[1..] == keys[2..];
      assert keys[1..][1..] == keys[2..];
      var opens := RepeatConcatOpen(|keys| - 2);
      assert RepeatConcatOpen(|keys| - 1) == opens + "CONCAT(";
      assert ClosingArgs(keys[1..]) == ", " + keys[1] + ")" + ClosingArgs(keys[2..]);
      calc {
        RecursiveConcat(keys).value;
        RecursiveConcat(folded).value;
        opens + ("CONCAT(" + keys[0] + ", " + keys[1] + ")") + ClosingArgs(keys[2..]);
        (opens + "CONCAT(") + keys[0] + (", " + keys[1] + ")" + ClosingArgs(keys[2..]));
        RepeatConcatOpen(|keys| - 1) + keys[0] + ClosingArgs(keys[1..]);
      }
    }
  }

  /** Left nesting: one more key wraps the whole previous expression in one more CONCAT. */
  lemma {:induction false} RecursiveConcatLeftNested(keys: seq<string>, key: string)
    requires |keys| >= 1
    ensures RecursiveConcat(keys + [key]) == Some("CONCAT(" + RecursiveConcat(keys).value + ", " + key + ")")
    decreases |keys|
  {
    if |keys| == 1 {
      assert keys + [key] == [keys[0], key];
      assert RecursiveConcat([keys[0], key]) == RecursiveConcat(["CONCAT(" + keys[0] + ", " + key + ")"] + []);
    } else {
      var folded := ["CONCAT(" + keys[0] + ", " + keys[1] + ")"] + keys[2..];
      assert (keys + [key])[2..] == keys[2..] + [key];
      assert ["CONCAT(" + keys[0] + ", " + keys[1] + ")"] + (keys + [key])[2..] == folded + [key];
      RecursiveConcatLeftNested(folded, key);
    }
  }

  /** The text `${x}` gives for a possibly undefined string. */
  function Interpolate(x: Option<string>): (r: string) {
    if x.Some? then x.value else "undefined"
  }

  /** `NULLIF(x, '')`: the empty string becomes NULL. */
  function NullIf(x: string): (r: string) {
    "NULLIF(" + x + ", '')"
  }

  /**
   * `NULLIF(<recursiveConcat of "p"."k">, '')`: a single key is guarded as it
   * is, without a CONCAT, and with no key the guard wraps `undefined`.
   */
  function CompositeKey(parent: string, keys: seq<string>): (r: string)
    ensures "NULLIF(" <= r && EndsWith(r, ", '')")
    ensures |keys| == 0 ==> r == "NULLIF(undefined, '')"
    ensures |keys| == 1 ==> r == "NULLIF(" + Quote(parent) + "." + Quote(keys[0]) + ", '')"
  {
    var q := QualifiedKeys(Quote, parent, keys);
    assert |keys| == 1 ==> q == [Quote(parent) + "." + Quote(keys[0])];
    var x := Interpolate(RecursiveConcat(q));
    Enclosed("NULLIF(", x, ", '')");
    NullIf(x)
  }

  /**
   * The composite key of n >= 1 keys opens n - 1 CONCATs before the first
   * qualified key `"parent"."key"`, and each further qualified key closes one,
   * in order.
   */
  lemma CompositeKeyNestsConcats(parent: string, keys: seq<string>)
    requires |keys| >= 1
    ensures var q := QualifiedKeys(Quote, parent, keys);
            CompositeKey(parent, keys) == NullIf(RepeatConcatOpen(|q| - 1) + q[0] + ClosingArgs(q[1..]))
  {
    RecursiveConcatClosedForm(QualifiedKeys(Quote, parent, keys));
  }

  /** With no key, `recursiveConcat` returns `keys[0]`, which interpolates as `undefined`. */
  lemma CompositeKeyOfNoKeys(parent: string)
    ensures CompositeKey(parent, []) == "NULLIF(" + "undefined" + ", '')"
  {
    assert QualifiedKeys(Quote, parent, []) == [];
  }

  // ---- paging selects ---------------------------------------------------------

  /** `${joinType === 'LEFT' ? 'OUTER' : 'CROSS'} APPLY (`. */
  function ApplyOpening(joinType: Option<string>): (r: string) {
    if joinType == Some("LEFT") then "OUTER APPLY (" else "CROSS APPLY ("
  }

  /** The `extraJoin` line, empty when there is no extra join. */
  function ExtraJoinText(extraJoin: Option<ExtraJoin>): (r: string) {
    if extraJoin.Some? then
      "LEFT JOIN " + extraJoin.value.name + " " + Quote(extraJoin.value.alias) + "\n    ON " + extraJoin.value.condition
    else ""
  }

  /**
   * The lines of a paging select, given its select list and its row-limiting
   * clause: with a truthy join condition an APPLY subquery that also carries
   * the extra join line, otherwise a plain `FROM (` subquery. The join
   * condition's text itself is not used.
   */
  function PagingLines(selectList: string, table: string, conds: seq<Cond>, order: Order, rowLimit: string,
                       alias: string, opts: SelectOptions, sh: Shared): (r: seq<string>)
    ensures |r| == if Truthy(opts.joinCondition) then 8 else 7
    ensures r[0] == if Truthy(opts.joinCondition) then ApplyOpening(opts.joinType) else "FROM ("
    ensures r[1] == "  SELECT " + selectList
    ensures r[|r| - 4] == "  WHERE " + WhereClause(conds, "1 = 1")
    ensures r[|r| - 2] == "  " + rowLimit
    ensures r[|r| - 1] == ") " + Quote(alias)
  {
    var whereCondition := WhereClause(conds, "1 = 1");
    var orderBy := sh.orderingsToString(order.columns, DoubleQuotes, order.table);
    var from := "  FROM " + table + " \"" + alias + "\"";
    var tail := ["  WHERE " + whereCondition, "  ORDER BY " + orderBy, "  " + rowLimit, ") " + Quote(alias)];
    if Truthy(opts.joinCondition) then
      [ApplyOpening(opts.joinType), "  SELECT " + selectList, from, "  " + ExtraJoinText(opts.extraJoin)] + tail
    else
      ["FROM (", "  SELECT " + selectList, from] + tail
  }

  /**
   * `keysetPagingSelect`: all columns of the alias, the first `limit` rows. It
   * opens with the APPLY or `FROM (` and closes with the row limit and the
   * alias.
   */
  function KeysetPagingSelect(table: string, conds: seq<Cond>, order: Order, limit: string, alias: string,
                              opts: SelectOptions, sh: Shared): (r: string)
    ensures (if Truthy(opts.joinCondition) then ApplyOpening(opts.joinType) else "FROM (") <= r
    ensures EndsWith(r, "  " + ("FETCH FIRST " + limit + " ROWS ONLY") + "\n" + (") " + Quote(alias)))
  {
    var lines := PagingLines("\"" + alias + "\".*", table, conds, order, "FETCH FIRST " + limit + " ROWS ONLY",
                             alias, opts, sh);
    JoinFrame(lines, "\n");
    JoinEndsWithLastTwo(lines, "\n");
    Join(lines, "\n")
  }

  /** The window column that counts every matching row, aliased `"$total"`. */
  function TotalColumn(): (r: string) {
    ", count(*) OVER () AS " + Quote("$total")
  }

  /**
   * `offsetPagingSelect`: adds the total-count column, skips `offset` rows,
   * then the next `limit`. It opens with the APPLY or `FROM (` and closes with
   * the offset, the row limit and the alias.
   */
  function OffsetPagingSelect(table: string, conds: seq<Cond>, order: Order, limit: string, offset: nat,
                              alias: string, opts: SelectOptions, sh: Shared): (r: string)
    ensures (if Truthy(opts.joinCondition) then ApplyOpening(opts.joinType) else "FROM (") <= r
    ensures EndsWith(r, "  " + ("OFFSET " + NatToString(offset) + " ROWS FETCH NEXT " + limit + " ROWS ONLY") +
                        "\n" + (") " + Quote(alias)))
  {
    var lines := PagingLines("\"" + alias + "\".*" + TotalColumn(), table, conds, order,
                             "OFFSET " + NatToString(offset) + " ROWS FETCH NEXT " + limit + " ROWS ONLY",
                             alias, opts, sh);
    JoinFrame(lines, "\n");
    JoinEndsWithLastTwo(lines, "\n");
    Join(lines, "\n")
  }

  /**
   * The select list and the row-limiting clause are the only two lines a
   * paging select's variants can differ in; everything else is shared.
   */
  lemma PagingLinesDifferOnlyInSelectListAndRowLimit(selectList1: string, selectList2: string,
                                                     rowLimit1: string, rowLimit2: string, table: string,
                                                     conds: seq<Cond>, order: Order, alias: string,
                                                     opts: SelectOptions, sh: Shared)
    ensures
      var k := PagingLines(selectList1, table, conds, order, rowLimit1, alias, opts, sh);
      var o := PagingLines(selectList2, table, conds, order, rowLimit2, alias, opts, sh);
      |o| == |k| && forall i :: 0 <= i < |k| && i != 1 && i != |k| - 2 ==> o[i] == k[i]
  {
  }

  /**
   * Keyset and offset selects differ in exactly two lines: offset adds the
   * `$total` column to the keyset select list, and its row-limiting line
   * (`OFFSET … FETCH NEXT`, where keyset has `FETCH FIRST`) is the other.
   */
  lemma OffsetDiffersFromKeysetInTwoLines(table: string, conds: seq<Cond>, order: Order, limit: string,
                                          offset: nat, alias: string, opts: SelectOptions, sh: Shared)
    ensures
      var k := PagingLines("\"" + alias + "\".*", table, conds, order, "FETCH FIRST " + limit + " ROWS ONLY",
                           alias, opts, sh);
      var o := PagingLines("\"" + alias + "\".*" + TotalColumn(), table, conds, order,
                           "OFFSET " + NatToString(offset) + " ROWS FETCH NEXT " + limit + " ROWS ONLY",
                           alias, opts, sh);
      |o| == |k| &&
      o[1] == k[1] + TotalColumn() &&
      forall i :: 0 <= i < |k| && i != 1 && i != |k| - 2 ==> o[i] == k[i]
  {
    var selectAll := "\"" + alias + "\".*";
    var fetch := "FETCH FIRST " + limit + " ROWS ONLY";
    var skipAndFetch := "OFFSET " + NatToString(offset) + " ROWS FETCH NEXT " + limit + " ROWS ONLY";
    PagingLinesDifferOnlyInSelectListAndRowLimit(selectAll, selectAll + TotalColumn(), fetch, skipAndFetch,
                                                 table, conds, order, alias, opts, sh);
    AppendAssociates("  SELECT ", selectAll, TotalColumn());
  }

  /** Only the truthiness of the join condition matters: its text is never embedded. */
  lemma JoinConditionTextIsNotEmbedded(table: string, conds: seq<Cond>, order: Order, limit: string,
                                       offset: nat, alias: string, opts: SelectOptions, a: string, b: string,
                                       sh: Shared)
    requires a != "" && b != ""
    ensures KeysetPagingSelect(table, conds, order, limit, alias, opts.(joinCondition := Some(a)), sh) ==
            KeysetPagingSelect(table, conds, order, limit, alias, opts.(joinCondition := Some(b)), sh)
    ensures OffsetPagingSelect(table, conds, order, limit, offset, alias, opts.(joinCondition := Some(a)), sh) ==
            OffsetPagingSelect(table, conds, order, limit, offset, alias, opts.(joinCondition := Some(b)), sh)
  {
  }

  // ---- batched fan-out over a UNION from DUAL ----------------------------------

  /** One batch value as a one-row table. */
  function DualRow(value: string): (r: string) {
    "\n    SELECT " + value + " AS \"value\" FROM DUAL\n  "
  }

  function DualRows(values: seq<string>): (r: seq<string>)
    ensures |r| == |values|
    ensures forall i :: 0 <= i < |values| ==> r[i] == DualRow(values[i])
  {
    seq(|values|, i requires 0 <= i < |values| => DualRow(values[i]))
  }

  /** `arrToTableUnion(arr)`: empty exactly for an empty batch; the first value's row opens it, the last's closes it. */
  function ArrToTableUnion(values: seq<string>): (r: string)
    ensures r == "" <==> |values| == 0
    ensures |values| >= 1 ==> DualRow(values[0]) <= r && EndsWith(r, DualRow(values[|values| - 1]))
  {
    if |values| >= 1 then
      JoinFrame(DualRows(values), " UNION ");
      Join(DualRows(values), " UNION ")
    else
      Join(DualRows(values), " UNION ")
  }

  /** One DUAL row per batch value, in order, with one " UNION " between neighbours. */
  lemma ArrToTableUnionOnePerValue(values: seq<string>, v: string)
    ensures ArrToTableUnion([]) == ""
    ensures ArrToTableUnion([v]) == DualRow(v)
    ensures |values| >= 1 ==> ArrToTableUnion(values + [v]) == ArrToTableUnion(values) + " UNION " + DualRow(v)
  {
    if |values| >= 1 {
      assert DualRows(values + [v]) == DualRows(values) + [DualRow(v)];
      JoinSnoc(DualRows(values), DualRow(v), " UNION ");
    }
  }

  /** `FROM (<union>) "temp"`. */
  function TempTable(batchScope: seq<string>): (r: string) {
    "FROM (" + ArrToTableUnion(batchScope) + ") \"temp\""
  }

  /** `"as"."thisKey" = "temp"."value"`: the first paging condition and the APPLY join condition. */
  function BatchKeyCondition(alias: string, thisKey: string): (r: string) {
    "\"" + alias + "\".\"" + thisKey + "\" = \"temp\".\"value\""
  }

  // ---- what each handler appends --------------------------------------------

  function RootFragments(node: Node, ks: KeysetPaging, os: OffsetPaging, sh: Shared): (r: seq<string>)
    ensures |r| == (if OneToManyMode(node) == Unpaged then 0 else 1)
  {
    var whereConds := WhereConds(node.where, Quote(node.alias));
    match OneToManyMode(node)
    case Keyset =>
      [KeysetPagingSelect(node.name, [ks.whereCondition] + whereConds, ks.order, ks.limit, node.alias, NoOptions, sh)]
    case Offset =>
      [OffsetPagingSelect(node.name, whereConds, os.order, os.limit, os.offset, node.alias, NoOptions, sh)]
    case Unpaged => []
  }

  /**
   * The paging subselect a non-root handler appends for a mode: keyset appends
   * the interpreter's condition after the others, offset uses them as they are.
   */
  function PagedSelect(mode: Mode, table: string, alias: string, conds: seq<Cond>, opts: SelectOptions,
                       ks: KeysetPaging, os: OffsetPaging, sh: Shared): (r: seq<string>)
    ensures |r| == (if mode == Unpaged then 0 else 1)
  {
    match mode
    case Keyset => [KeysetPagingSelect(table, conds + [ks.whereCondition], ks.order, ks.limit, alias, opts, sh)]
    case Offset => [OffsetPagingSelect(table, conds, os.order, os.limit, os.offset, alias, opts, sh)]
    case Unpaged => []
  }

  function JoinedOneToManyFragments(parentAlias: string, node: Node, joinCondition: string,
                                    ks: KeysetPaging, os: OffsetPaging, sh: Shared): (r: seq<string>)
    ensures |r| == (if OneToManyMode(node) == Unpaged then 0 else 1)
  {
    var conds := [node.sqlJoin(Quote(parentAlias), Quote(node.alias))] + WhereConds(node.where, Quote(node.alias));
    var opts := SelectOptions(Some(joinCondition), Some("LEFT"), None, None);
    PagedSelect(OneToManyMode(node), node.name, node.alias, conds, opts, ks, os, sh)
  }

  function JoinedManyToManyFragments(parentAlias: string, node: Node, joinCondition1: string,
                                     joinCondition2: string, ks: KeysetPaging, os: OffsetPaging,
                                     sh: Shared): (r: seq<string>)
    requires node.junction.Some?
    ensures |r| == (if ManyToManyMode(node) == Unpaged then 0 else 1)
  {
    var j := node.junction.value;
    var conds := [j.sqlJoinFromParent(Quote(parentAlias), Quote(j.alias))] +
                 ManyToManyWhereConds(node, Quote(j.alias), Quote(node.alias));
    var opts := SelectOptions(Some(joinCondition1), Some("LEFT"), ExtraJoinFor(node, joinCondition2), None);
    PagedSelect(ManyToManyMode(node), j.sqlTable, j.alias, conds, opts, ks, os, sh)
  }

  /** Batched one-to-many: the DUAL union, then a CROSS APPLY (no join type is passed). */
  function BatchedOneToManyFragments(node: Node, batchScope: seq<string>, ks: KeysetPaging,
                                     os: OffsetPaging, sh: Shared): (r: seq<string>)
    requires node.sqlBatch.Some?
    ensures |r| == (if OneToManyMode(node) == Unpaged then 1 else 2)
    ensures r[0] == TempTable(batchScope)
  {
    var keyCond := BatchKeyCondition(node.alias, node.sqlBatch.value.thisKey);
    var conds := [Some(keyCond)] + WhereConds(node.where, Quote(node.alias));
    var opts := SelectOptions(Some(keyCond), None, None, None);
    [TempTable(batchScope)] + PagedSelect(OneToManyMode(node), node.name, node.alias, conds, opts, ks, os, sh)
  }

  /** The join to the child table closing a batched many-to-many fan-out (Oracle takes no AS). */
  function ChildJoin(node: Node, joinCondition: string): (r: string) {
    "LEFT JOIN " + node.name + " \"" + node.alias + "\" ON " + joinCondition
  }

  /** Batched many-to-many: the DUAL union, an OUTER APPLY on the junction table, the child join. */
  function BatchedManyToManyFragments(node: Node, batchScope: seq<string>, joinCondition: string,
                                      ks: KeysetPaging, os: OffsetPaging, sh: Shared): (r: seq<string>)
    requires node.junction.Some? && node.junction.value.sqlBatch.Some?
    ensures |r| == (if ManyToManyMode(node) == Unpaged then 2 else 3)
    ensures r[0] == TempTable(batchScope)
    ensures r[|r| - 1] == ChildJoin(node, joinCondition)
  {
    var j := node.junction.value;
    var keyCond := BatchKeyCondition(j.alias, j.sqlBatch.value.thisKey);
    var conds := [Some(keyCond)] + ManyToManyWhereConds(node, Quote(j.alias), Quote(node.alias));
    var opts := SelectOptions(Some(keyCond), Some("LEFT"), ExtraJoinFor(node, joinCondition), None);
    [TempTable(batchScope)] + PagedSelect(ManyToManyMode(node), j.sqlTable, j.alias, conds, opts, ks, os, sh) +
    [ChildJoin(node, joinCondition)]
  }

  /**
   * The wrapper of a paging subselect: it opens with `OUTER APPLY (` or
   * `CROSS APPLY (` when the join condition is truthy and with `FROM (` when
   * it is not, and it always closes with `) "as"`.
   */
  lemma PagedSelectWrapper(mode: Mode, table: string, alias: string, conds: seq<Cond>, opts: SelectOptions,
                           ks: KeysetPaging, os: OffsetPaging, sh: Shared)
    requires mode != Unpaged
    ensures (if Truthy(opts.joinCondition) then ApplyOpening(opts.joinType) else "FROM (") <=
            PagedSelect(mode, table, alias, conds, opts, ks, os, sh)[0]
    ensures EndsWith(PagedSelect(mode, table, alias, conds, opts, ks, os, sh)[0], ") " + Quote(alias))
  {
    if mode == Keyset {
      JoinFrame(PagingLines("\"" + alias + "\".*", table, conds + [ks.whereCondition], ks.order,
                            "FETCH FIRST " + ks.limit + " ROWS ONLY", alias, opts, sh), "\n");
    } else {
      JoinFrame(PagingLines("\"" + alias + "\".*" + TotalColumn(), table, conds, os.order,
                            "OFFSET " + NatToString(os.offset) + " ROWS FETCH NEXT " + os.limit + " ROWS ONLY",
                            alias, opts, sh), "\n");
    }
  }

  /**
   * The joined handlers pass `joinType: 'LEFT'`, so their subselect is an
   * `OUTER APPLY`; an empty join condition is falsy and falls back to `FROM (`.
   */
  lemma JoinedHandlersApplyOuter(parentAlias: string, node: Node, jc1: string, jc2: string,
                                 ks: KeysetPaging, os: OffsetPaging, sh: Shared)
    ensures OneToManyMode(node) != Unpaged ==>
      (if jc1 != "" then "OUTER APPLY (" else "FROM (") <= JoinedOneToManyFragments(parentAlias, node, jc1, ks, os, sh)[0]
    ensures node.junction.Some? && ManyToManyMode(node) != Unpaged ==>
      (if jc1 != "" then "OUTER APPLY (" else "FROM (") <=
      JoinedManyToManyFragments(parentAlias, node, jc1, jc2, ks, os, sh)[0]
  {
    if OneToManyMode(node) != Unpaged {
      PagedSelectWrapper(OneToManyMode(node), node.name, node.alias,
                         [node.sqlJoin(Quote(parentAlias), Quote(node.alias))] + WhereConds(node.where, Quote(node.alias)),
                         SelectOptions(Some(jc1), Some("LEFT"), None, None), ks, os, sh);
    }
    if node.junction.Some? && ManyToManyMode(node) != Unpaged {
      var j := node.junction.value;
      PagedSelectWrapper(ManyToManyMode(node), j.sqlTable, j.alias,
                         [j.sqlJoinFromParent(Quote(parentAlias), Quote(j.alias))] +
                         ManyToManyWhereConds(node, Quote(j.alias), Quote(node.alias)),
                         SelectOptions(Some(jc1), Some("LEFT"), ExtraJoinFor(node, jc2), None), ks, os, sh);
    }
  }

  /** Batched one-to-many passes no join type and gets `CROSS APPLY`, right after the `"temp"` union. */
  lemma BatchedOneToManyCrossApplies(node: Node, batchScope: seq<string>, ks: KeysetPaging, os: OffsetPaging,
                                     sh: Shared)
    requires node.sqlBatch.Some? && OneToManyMode(node) != Unpaged
    ensures "CROSS APPLY (" <= BatchedOneToManyFragments(node, batchScope, ks, os, sh)[1]
  {
    var keyCond := BatchKeyCondition(node.alias, node.sqlBatch.value.thisKey);
    PagedSelectWrapper(OneToManyMode(node), node.name, node.alias,
                       [Some(keyCond)] + WhereConds(node.where, Quote(node.alias)),
                       SelectOptions(Some(keyCond), None, None, None), ks, os, sh);
  }

  /** Batched many-to-many passes `'LEFT'` and gets `OUTER APPLY`, right after the `"temp"` union. */
  lemma BatchedManyToManyOuterApplies(node: Node, batchScope: seq<string>, joinCondition: string,
                                      ks: KeysetPaging, os: OffsetPaging, sh: Shared)
    requires node.junction.Some? && node.junction.value.sqlBatch.Some? && ManyToManyMode(node) != Unpaged
    ensures "OUTER APPLY (" <= BatchedManyToManyFragments(node, batchScope, joinCondition, ks, os, sh)[1]
  {
    var j := node.junction.value;
    var keyCond := BatchKeyCondition(j.alias, j.sqlBatch.value.thisKey);
    PagedSelectWrapper(ManyToManyMode(node), j.sqlTable, j.alias,
                       [Some(keyCond)] + ManyToManyWhereConds(node, Quote(j.alias), Quote(node.alias)),
                       SelectOptions(Some(keyCond), Some("LEFT"), ExtraJoinFor(node, joinCondition), None),
                       ks, os, sh);
  }

  // ---- the handlers, pushing onto the caller's list -------------------------

  method HandlePaginationAtRoot(node: Node, ks: KeysetPaging, os: OffsetPaging, sh: Shared, tables: Tables)
    modifies tables
    ensures tables.items == old(tables.items) + RootFragments(node, ks, os, sh)
  {
    var pagingWhereConditions: seq<Cond> := [];
    if node.hasSortKey {
      pagingWhereConditions := pagingWhereConditions + [ks.whereCondition];
      if node.where.Some? {
        pagingWhereConditions := pagingWhereConditions + [node.where.value(Quote(node.alias))];
      }
      assert pagingWhereConditions == [ks.whereCondition] + WhereConds(node.where, Quote(node.alias));
      tables.Push(KeysetPagingSelect(node.name, pagingWhereConditions, ks.order, ks.limit, node.alias,
                                     NoOptions, sh));
    } else if node.hasOrderBy {
      if node.where.Some? {
        pagingWhereConditions := pagingWhereConditions + [node.where.value(Quote(node.alias))];
      }
      assert pagingWhereConditions == WhereConds(node.where, Quote(node.alias));
      tables.Push(OffsetPagingSelect(node.name, pagingWhereConditions, os.order, os.limit, os.offset,
                                     node.alias, NoOptions, sh));
    }
  }

  method HandleJoinedOneToManyPaginated(parentAlias: string, node: Node, joinCondition: string,
                                        ks: KeysetPaging, os: OffsetPaging, sh: Shared, tables: Tables)
    modifies tables
    ensures tables.items == old(tables.items) +
                            JoinedOneToManyFragments(parentAlias, node, joinCondition, ks, os, sh)
  {
    var pagingWhereConditions := [node.sqlJoin(Quote(parentAlias), Quote(node.alias))];
    if node.where.Some? {
      pagingWhereConditions := pagingWhereConditions + [node.where.value(Quote(node.alias))];
    }
    assert pagingWhereConditions ==
           [node.sqlJoin(Quote(parentAlias), Quote(node.alias))] + WhereConds(node.where, Quote(node.alias));
    // a sort key pages by keyset, an order-by by offset
    PushPagedSelect(OneToManyMode(node), node.name, node.alias, pagingWhereConditions,
                    SelectOptions(Some(joinCondition), Some("LEFT"), None, None), ks, os, sh, tables);
  }

  method HandleJoinedManyToManyPaginated(parentAlias: string, node: Node, joinCondition1: string,
                                         joinCondition2: string, ks: KeysetPaging, os: OffsetPaging,
                                         sh: Shared, tables: Tables)
    requires node.junction.Some?
    modifies tables
    ensures tables.items == old(tables.items) +
                            JoinedManyToManyFragments(parentAlias, node, joinCondition1, joinCondition2, ks, os, sh)
  {
    var junction := node.junction.value;
    var pagingWhereConditions := [junction.sqlJoinFromParent(Quote(parentAlias), Quote(junction.alias))];
    if junction.where.Some? {
      pagingWhereConditions := pagingWhereConditions + [junction.where.value(Quote(junction.alias))];
    }
    if node.where.Some? {
      pagingWhereConditions := pagingWhereConditions + [node.where.value(Quote(node.alias))];
    }
    assert pagingWhereConditions ==
           [junction.sqlJoinFromParent(Quote(parentAlias), Quote(junction.alias))] +
           ManyToManyWhereConds(node, Quote(junction.alias), Quote(node.alias));
    var lateralJoinOptions := SelectOptions(Some(joinCondition1), Some("LEFT"), None, None);
    if node.where.Some? || node.hasOrderBy {
      lateralJoinOptions := lateralJoinOptions.(extraJoin := Some(ExtraJoin(node.name, node.alias, joinCondition2)));
    }
    assert lateralJoinOptions == Pg.LeftJoinOn(joinCondition1, ExtraJoinFor(node, joinCondition2));
    // a sort key on either table pages by keyset, an order-by by offset
    PushPagedSelect(ManyToManyMode(node), junction.sqlTable, junction.alias, pagingWhereConditions,
                    lateralJoinOptions, ks, os, sh, tables);
  }

  method HandleBatchedOneToManyPaginated(node: Node, batchScope: seq<string>, ks: KeysetPaging,
                                         os: OffsetPaging, sh: Shared, tables: Tables)
    requires node.sqlBatch.Some?
    modifies tables
    ensures tables.items == old(tables.items) + BatchedOneToManyFragments(node, batchScope, ks, os, sh)
  {
    var thisKey := node.sqlBatch.value.thisKey;
    var pagingWhereConditions := [Some(BatchKeyCondition(node.alias, thisKey))];
    if node.where.Some? {
      pagingWhereConditions := pagingWhereConditions + [node.where.value(Quote(node.alias))];
    }
    assert pagingWhereConditions == [Some(BatchKeyCondition(node.alias, thisKey))] +
                                    WhereConds(node.where, Quote(node.alias));
    tables.Push(TempTable(batchScope));
    assert tables.items == old(tables.items) + [TempTable(batchScope)];
    var lateralJoinCondition := BatchKeyCondition(node.alias, thisKey);
    // a sort key pages by keyset, an order-by by offset
    PushPagedSelect(OneToManyMode(node), node.name, node.alias, pagingWhereConditions,
                    SelectOptions(Some(lateralJoinCondition), None, None, None), ks, os, sh, tables);
    AppendAssociates(old(tables.items), [TempTable(batchScope)],
                     PagedSelect(OneToManyMode(node), node.name, node.alias, pagingWhereConditions,
                                 SelectOptions(Some(lateralJoinCondition), None, None, None), ks, os, sh));
  }

  method HandleBatchedManyToManyPaginated(node: Node, batchScope: seq<string>, joinCondition: string,
                                          ks: KeysetPaging, os: OffsetPaging, sh: Shared, tables: Tables)
    requires node.junction.Some? && node.junction.value.sqlBatch.Some?
    modifies tables
    ensures tables.items == old(tables.items) +
                            BatchedManyToManyFragments(node, batchScope, joinCondition, ks, os, sh)
  {
    var junction := node.junction.value;
    var thisKey := junction.sqlBatch.value.thisKey;
    var pagingWhereConditions := [Some(BatchKeyCondition(junction.alias, thisKey))];
    if junction.where.Some? {
      pagingWhereConditions := pagingWhereConditions + [junction.where.value(Quote(junction.alias))];
    }
    if node.where.Some? {
      pagingWhereConditions := pagingWhereConditions + [node.where.value(Quote(node.alias))];
    }
    assert pagingWhereConditions == [Some(BatchKeyCondition(junction.alias, thisKey))] +
                                    ManyToManyWhereConds(node, Quote(junction.alias), Quote(node.alias));
    tables.Push(TempTable(batchScope));
    assert tables.items == old(tables.items) + [TempTable(batchScope)];
    var lateralJoinCondition := BatchKeyCondition(junction.alias, thisKey);
    var lateralJoinOptions := SelectOptions(Some(lateralJoinCondition), Some("LEFT"), None, None);
    if node.where.Some? || node.hasOrderBy {
      lateralJoinOptions := lateralJoinOptions.(extraJoin := Some(ExtraJoin(node.name, node.alias, joinCondition)));
    }
    assert lateralJoinOptions == SelectOptions(Some(BatchKeyCondition(junction.alias, thisKey)), Some("LEFT"),
                                               ExtraJoinFor(node, joinCondition), None);
    // a sort key on either table pages by keyset, an order-by by offset
    PushPagedSelect(ManyToManyMode(node), junction.sqlTable, junction.alias, pagingWhereConditions,
                    lateralJoinOptions, ks, os, sh, tables);
    ghost var paged :=
      PagedSelect(ManyToManyMode(node), junction.sqlTable, junction.alias, pagingWhereConditions, lateralJoinOptions,
                  ks, os, sh);
    assert tables.items == old(tables.items) + [TempTable(batchScope)] + paged;
    assert BatchedManyToManyFragments(node, batchScope, joinCondition, ks, os, sh) ==
           [TempTable(batchScope)] + paged + [ChildJoin(node, joinCondition)];
    ghost var before := tables.items;
    tables.Push(ChildJoin(node, joinCondition));
    assert tables.items == before + [ChildJoin(node, joinCondition)];
    AppendRegroup(old(tables.items), [TempTable(batchScope)], paged, [ChildJoin(node, joinCondition)]);
  }

  /**
   * Pushes the paged select the mode calls for: `keysetPagingSelect` with the
   * interpreter's condition added, `offsetPagingSelect`, or nothing.
   */
  method PushPagedSelect(mode: Mode, table: string, alias: string, conds: seq<Cond>, opts: SelectOptions,
                         ks: KeysetPaging, os: OffsetPaging, sh: Shared, tables: Tables)
    modifies tables
    ensures tables.items == old(tables.items) + PagedSelect(mode, table, alias, conds, opts, ks, os, sh)
  {
    if mode == Keyset {
      tables.Push(KeysetPagingSelect(table, conds + [ks.whereCondition], ks.order, ks.limit, alias, opts, sh));
    } else if mode == Offset {
      tables.Push(OffsetPagingSelect(table, conds, os.order, os.limit, os.offset, alias, opts, sh));
    }
  }

  // ---- relation to the Postgres handlers ---------------------------------------

  /** The shared helpers with the paging renderers replaced by Oracle's own. */
  function WithOracleRenderers(sh: Shared): Shared {
    sh.(keysetPagingSelect := (table, conds, order, limit, alias, opts) =>
          KeysetPagingSelect(table, conds, order, limit, alias, opts, sh),
        offsetPagingSelect := (table, conds, order, limit, offset: nat, alias, opts) =>
          OffsetPagingSelect(table, conds, order, limit, offset, alias, opts, sh))
  }

  /**
   * The root and joined handlers follow Postgres's decision tree exactly:
   * they append what Postgres's would if its renderers were Oracle's.
   */
  lemma RootAndJoinedHandlersReusePostgresStructure(parentAlias: string, node: Node, jc1: string, jc2: string,
                                                    ks: KeysetPaging, os: OffsetPaging, sh: Shared)
    ensures RootFragments(node, ks, os, sh) == Pg.RootFragments(node, ks, os, WithOracleRenderers(sh))
    ensures JoinedOneToManyFragments(parentAlias, node, jc1, ks, os, sh) ==
            Pg.JoinedOneToManyFragments(parentAlias, node, jc1, ks, os, WithOracleRenderers(sh))
    ensures node.junction.Some? ==>
            JoinedManyToManyFragments(parentAlias, node, jc1, jc2, ks, os, sh) ==
            Pg.JoinedManyToManyFragments(parentAlias, node, jc1, jc2, ks, os, WithOracleRenderers(sh))
  {
  }

  /** Oracle's composite key agrees with Postgres's on exactly two keys, where one binary CONCAT suffices. */
  lemma CompositeKeyAgreesWithPgOnTwoKeys(parent: string, k1: string, k2: string)
    ensures CompositeKey(parent, [k1, k2]) == Pg.CompositeKey(parent, [k1, k2])
  {
    var q := QualifiedKeys(Quote, parent, [k1, k2]);
    assert QualifiedKeys(Pg.Quote, parent, [k1, k2]) == q;
    assert Pg.ConcatArgs(parent, [k1, k2]) == q[0] + ", " + q[1];
    assert RecursiveConcat(q) == RecursiveConcat(["CONCAT(" + q[0] + ", " + q[1] + ")"]);
    NullIfOfBinaryConcat(q[0], q[1]);
  }

  /** `NULLIF(CONCAT(a, b), '')`, however the pieces are grouped. */
  lemma NullIfOfBinaryConcat(a: string, b: string)
    ensures NullIf("CONCAT(" + a + ", " + b + ")") == "NULLIF(CONCAT(" + (a + ", " + b) + "), '')"
  {
  }
}
