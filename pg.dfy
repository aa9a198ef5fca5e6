/**
 * The PostgreSQL dialect: double-quoted identifiers, a NULLIF-guarded variadic
 * CONCAT for composite keys, and pagination through LATERAL subselects rendered
 * by the shared keyset/offset renderers. Batched fan-out joins an inline
 * `VALUES` list aliased `temp`.
 *
 * Each handler is a pure function giving the fragments it appends, and a
 * method that builds its conditions and pushes onto `tables` as the dialect
 * does, proved to append exactly those fragments.
 */
module Pg {
  import opened Wrappers
  import opened Text
  import opened Classes
  import opened Plan

  const Name: string := "pg"

  /** `class Dialect`: no superclass; it defines the name, quoting, keys and all five handlers. */
  const Class: Proto := Extend(Object, map[
    Member.Name := PgCode, Member.Quote := PgCode, Member.CompositeKey := PgCode,
    Member.HandlePaginationAtRoot := PgCode,
    Member.HandleJoinedOneToManyPaginated := PgCode, Member.HandleJoinedManyToManyPaginated := PgCode,
    Member.HandleBatchedOneToManyPaginated := PgCode, Member.HandleBatchedManyToManyPaginated := PgCode])

  /** `"str"`: the identifier between double quotes, unchanged. */
  function Quote(s: string): (r: string)
    ensures |r| == |s| + 2 && r[0] == '"' && r[|r| - 1] == '"'
    ensures r[1..|r| - 1] == s
  {
    "\"" + s + "\""
  }

  /** The quoted key columns joined by ", ": the argument list of the CONCAT. */
  function ConcatArgs(parent: string, keys: seq<string>): (r: string) {
    Join(QualifiedKeys(Quote, parent, keys), ", ")
  }

  /**
   * `NULLIF(CONCAT("p"."k1", …, "p"."kn"), '')`: the concatenation opens with
   * the first key column and closes after the last, and the NULLIF guard is
   * always there.
   */
  function CompositeKey(parent: string, keys: seq<string>): (r: string)
    ensures |keys| == 0 ==> r == "NULLIF(CONCAT(), '')"
    ensures |keys| >= 1 ==> "NULLIF(CONCAT(" + (Quote(parent) + "." + Quote(keys[0])) <= r
    ensures |keys| >= 1 ==> EndsWith(r, Quote(parent) + "." + Quote(keys[|keys| - 1]) + "), '')")
  {
    if |keys| >= 1 then
      WrappedJoinFrame("NULLIF(CONCAT(", QualifiedKeys(Quote, parent, keys), ", ", "), '')");
      "NULLIF(CONCAT(" + ConcatArgs(parent, keys) + "), '')"
    else
      "NULLIF(CONCAT(" + ConcatArgs(parent, keys) + "), '')"
  }

  /** One key is the whole argument list; each further key is appended after ", ", in order. */
  lemma {:induction false} CompositeKeyKeyOrder(parent: string, keys: seq<string>, key: string)
    ensures CompositeKey(parent, [key]) == "NULLIF(CONCAT(" + (Quote(parent) + "." + Quote(key)) + "), '')"
    ensures |keys| >= 1 ==>
      CompositeKey(parent, keys + [key]) ==
      "NULLIF(CONCAT(" + (ConcatArgs(parent, keys) + ", " + (Quote(parent) + "." + Quote(key))) + "), '')"
  {
    var q := Quote(parent) + "." + Quote(key);
    assert QualifiedKeys(Quote, parent, [key]) == [q];
    if |keys| >= 1 {
      assert QualifiedKeys(Quote, parent, keys + [key]) == QualifiedKeys(Quote, parent, keys) + [q];
      JoinSnoc(QualifiedKeys(Quote, parent, keys), q, ", ");
    }
  }

  // ---- batched fan-out over an inline VALUES list ---------------------------

  function Parenthesized(values: seq<string>): (r: seq<string>)
    ensures |r| == |values|
    ensures forall i :: 0 <= i < |values| ==> r[i] == "(" + values[i] + ")"
  {
    seq(|values|, i requires 0 <= i < |values| => "(" + values[i] + ")")
  }

  /** `${batchScope.map(val => `(${val})`)}`: an array in a template is joined with ",". */
  function ValuesList(values: seq<string>): (r: string)
    ensures r == "" <==> |values| == 0
    ensures |values| >= 1 ==> "(" + values[0] + ")" <= r && EndsWith(r, "(" + values[|values| - 1] + ")")
  {
    if |values| >= 1 then
      JoinFrame(Parenthesized(values), ",");
      Join(Parenthesized(values), ",")
    else
      Join(Parenthesized(values), ",")
  }

  /** One parenthesised entry per batch value, in batch order, separated by ",". */
  lemma {:induction false} ValuesListOnePerValue(values: seq<string>, v: string)
    ensures ValuesList([]) == ""
    ensures ValuesList([v]) == "(" + v + ")"
    ensures |values| >= 1 ==> ValuesList(values + [v]) == ValuesList(values) + ",(" + v + ")"
  {
    if |values| >= 1 {
      assert Parenthesized(values + [v]) == Parenthesized(values) + ["(" + v + ")"];
      JoinSnoc(Parenthesized(values), "(" + v + ")", ",");
    }
  }

  /**
   * `FROM (VALUES (v1),(v2),…) temp("parentKey")`: the first batch value opens
   * the VALUES list, and the table is always named `temp` with the single
   * column named after the parent key.
   */
  function TempTable(batchScope: seq<string>, parentKey: string): (r: string)
    ensures |batchScope| >= 1 ==> "FROM (VALUES " + ("(" + batchScope[0] + ")") <= r
    ensures EndsWith(r, ") temp(" + Quote(parentKey) + ")")
  {
    var values := ValuesList(batchScope);
    var post := ") temp(" + Quote(parentKey) + ")";
    var r := "FROM (VALUES " + values + post;
    Enclosed("FROM (VALUES ", values, post);
    if |batchScope| >= 1 then
      PrefixWithin("FROM (VALUES ", "(" + batchScope[0] + ")", values, post);
      r
    else
      r
  }

  /**
   * `operand = temp."parentKey"`, the operand being the quoted child key cast
   * after the type of the first batch value. It is both the first paging
   * condition and the lateral join condition of a batched handler.
   */
  function BatchKeyCondition(alias: string, batch: SqlBatch, batchScope: seq<string>, sh: Shared): (r: string) {
    sh.castExpression(Quote(alias) + "." + Quote(batch.thisKey), FirstValue(batchScope)) +
    " = temp." + Quote(batch.parentKey)
  }

  // ---- what each handler appends --------------------------------------------

  /** `handlePaginationAtRoot`: the seek addendum precedes the `where` result in keyset mode. */
  function RootFragments(node: Node, ks: KeysetPaging, os: OffsetPaging, sh: Shared): (r: seq<string>)
    ensures |r| == (if OneToManyMode(node) == Unpaged then 0 else 1)
  {
    var whereConds := WhereConds(node.where, Quote(node.alias));
    match OneToManyMode(node)
    case Keyset =>
      [sh.keysetPagingSelect(node.name, [ks.whereCondition] + whereConds, ks.order, ks.limit,
                             node.alias, NoOptions)]
    case Offset =>
      [sh.offsetPagingSelect(node.name, whereConds, os.order, os.limit, os.offset, node.alias, NoOptions)]
    case Unpaged => []
  }

  /** The options of a joined handler: `{ joinCondition, joinType: 'LEFT' }`. */
  function LeftJoinOn(joinCondition: string, extraJoin: Option<ExtraJoin>): SelectOptions {
    SelectOptions(Some(joinCondition), Some("LEFT"), extraJoin, None)
  }

  /**
   * The paging select a handler pushes in the given mode: `keysetPagingSelect`
   * with the interpreter's seek condition after the others, `offsetPagingSelect`
   * with the conditions as they are, or nothing.
   */
  function PagedSelect(mode: Mode, table: string, alias: string, conds: seq<Cond>, opts: SelectOptions,
                       ks: KeysetPaging, os: OffsetPaging, sh: Shared): (r: seq<string>)
    ensures |r| == (if mode == Unpaged then 0 else 1)
  {
    match mode
    case Keyset => [sh.keysetPagingSelect(table, conds + [ks.whereCondition], ks.order, ks.limit, alias, opts)]
    case Offset => [sh.offsetPagingSelect(table, conds, os.order, os.limit, os.offset, alias, opts)]
    case Unpaged => []
  }

  /** `handleJoinedOneToManyPaginated`: the `sqlJoin` result, the `where` result, then the seek addendum. */
  function JoinedOneToManyFragments(parentAlias: string, node: Node, joinCondition: string,
                                    ks: KeysetPaging, os: OffsetPaging, sh: Shared): (r: seq<string>)
    ensures |r| == (if OneToManyMode(node) == Unpaged then 0 else 1)
  {
    var conds := [node.sqlJoin(Quote(parentAlias), Quote(node.alias))] + WhereConds(node.where, Quote(node.alias));
    PagedSelect(OneToManyMode(node), node.name, node.alias, conds, LeftJoinOn(joinCondition, None), ks, os, sh)
  }

  /**
   * `handleJoinedManyToManyPaginated`: selects from the junction table under
   * the junction alias; the child table is joined inside when the node has a
   * `where` or an `orderBy`.
   */
  function JoinedManyToManyFragments(parentAlias: string, node: Node, joinCondition1: string,
                                     joinCondition2: string, ks: KeysetPaging, os: OffsetPaging,
                                     sh: Shared): (r: seq<string>)
    requires node.junction.Some?
    ensures |r| == (if ManyToManyMode(node) == Unpaged then 0 else 1)
  {
    var j := node.junction.value;
    var conds := [j.sqlJoinFromParent(Quote(parentAlias), Quote(j.alias))] +
                 ManyToManyWhereConds(node, Quote(j.alias), Quote(node.alias));
    var opts := LeftJoinOn(joinCondition1, ExtraJoinFor(node, joinCondition2));
    PagedSelect(ManyToManyMode(node), j.sqlTable, j.alias, conds, opts, ks, os, sh)
  }

  /** `handleBatchedOneToManyPaginated`: the VALUES table, then the lateral paging select. */
  function BatchedOneToManyFragments(node: Node, batchScope: seq<string>, ks: KeysetPaging,
                                     os: OffsetPaging, sh: Shared): (r: seq<string>)
    requires node.sqlBatch.Some?
    ensures |r| == (if OneToManyMode(node) == Unpaged then 1 else 2)
    ensures r[0] == TempTable(batchScope, node.sqlBatch.value.parentKey)
  {
    var b := node.sqlBatch.value;
    var keyCond := BatchKeyCondition(node.alias, b, batchScope, sh);
    var conds := [Some(keyCond)] + WhereConds(node.where, Quote(node.alias));
    var opts := SelectOptions(Some(keyCond), None, None, None);
    [TempTable(batchScope, b.parentKey)] + PagedSelect(OneToManyMode(node), node.name, node.alias, conds, opts, ks, os, sh)
  }

  /** The join to the child table that closes a batched many-to-many fan-out. */
  function ChildJoin(node: Node, joinCondition: string): (r: string)
    ensures "LEFT JOIN " + node.name + " AS " <= r
    ensures EndsWith(r, Quote(node.alias) + " ON " + joinCondition)
  {
    var r := "LEFT JOIN " + node.name + " AS " + Quote(node.alias) + " ON " + joinCondition;
    assert r[|r| - |Quote(node.alias) + " ON " + joinCondition|..] == Quote(node.alias) + " ON " + joinCondition;
    r
  }

  /**
   * `handleBatchedManyToManyPaginated`: the VALUES table over the junction's
   * batch key, the lateral paging select on the junction table, and always the
   * join to the child table last.
   */
  function BatchedManyToManyFragments(node: Node, batchScope: seq<string>, joinCondition: string,
                                      ks: KeysetPaging, os: OffsetPaging, sh: Shared): (r: seq<string>)
    requires node.junction.Some? && node.junction.value.sqlBatch.Some?
    ensures |r| == (if ManyToManyMode(node) == Unpaged then 2 else 3)
    ensures r[0] == TempTable(batchScope, node.junction.value.sqlBatch.value.parentKey)
    ensures r[|r| - 1] == ChildJoin(node, joinCondition)
  {
    var j := node.junction.value;
    var b := j.sqlBatch.value;
    var keyCond := BatchKeyCondition(j.alias, b, batchScope, sh);
    var conds := [Some(keyCond)] + ManyToManyWhereConds(node, Quote(j.alias), Quote(node.alias));
    var opts := LeftJoinOn(keyCond, ExtraJoinFor(node, joinCondition));
    [TempTable(batchScope, b.parentKey)] + PagedSelect(ManyToManyMode(node), j.sqlTable, j.alias, conds, opts, ks, os, sh) +
    [ChildJoin(node, joinCondition)]
  }

  // ---- the handlers, pushing onto the caller's list -------------------------

  method HandlePaginationAtRoot(node: Node, ks: KeysetPaging, os: OffsetPaging, sh: Shared, tables: Tables)
    modifies tables
    ensures tables.items == old(tables.items) + RootFragments(node, ks, os, sh)
  {
    var pagingWhereConditions: seq<Cond> := [];
    if node.hasSortKey {
      pagingWhereConditions := pagingWhereConditions + [ks.whereCondition];
      if node.where.Some? {
        pagingWhereConditions := pagingWhereConditions + [node.where.value(Quote(node.alias))];
      }
      assert pagingWhereConditions == [ks.whereCondition] + WhereConds(node.where, Quote(node.alias));
      tables.Push(sh.keysetPagingSelect(node.name, pagingWhereConditions, ks.order, ks.limit,
                                        node.alias, NoOptions));
    } else if node.hasOrderBy {
      if node.where.Some? {
        pagingWhereConditions := pagingWhereConditions + [node.where.value(Quote(node.alias))];
      }
      assert pagingWhereConditions == WhereConds(node.where, Quote(node.alias));
      tables.Push(sh.offsetPagingSelect(node.name, pagingWhereConditions, os.order, os.limit,
                                        os.offset, node.alias, NoOptions));
    }
  }

  method HandleJoinedOneToManyPaginated(parentAlias: string, node: Node, joinCondition: string,
                                        ks: KeysetPaging, os: OffsetPaging, sh: Shared, tables: Tables)
    modifies tables
    ensures tables.items == old(tables.items) +
                            JoinedOneToManyFragments(parentAlias, node, joinCondition, ks, os, sh)
  {
    var pagingWhereConditions := [node.sqlJoin(Quote(parentAlias), Quote(node.alias))];
    if node.where.Some? {
      pagingWhereConditions := pagingWhereConditions + [node.where.value(Quote(node.alias))];
    }
    assert pagingWhereConditions ==
           [node.sqlJoin(Quote(parentAlias), Quote(node.alias))] + WhereConds(node.where, Quote(node.alias));
    if node.hasSortKey {
      pagingWhereConditions := pagingWhereConditions + [ks.whereCondition];
      tables.Push(sh.keysetPagingSelect(node.name, pagingWhereConditions, ks.order, ks.limit, node.alias,
                                        SelectOptions(Some(joinCondition), Some("LEFT"), None, None)));
    } else if node.hasOrderBy {
      tables.Push(sh.offsetPagingSelect(node.name, pagingWhereConditions, os.order, os.limit, os.offset,
                                        node.alias, SelectOptions(Some(joinCondition), Some("LEFT"), None, None)));
    }
  }

  method HandleBatchedManyToManyPaginated(node: Node, batchScope: seq<string>, joinCondition: string,
                                          ks: KeysetPaging, os: OffsetPaging, sh: Shared, tables: Tables)
    requires node.junction.Some? && node.junction.value.sqlBatch.Some?
    modifies tables
    ensures tables.items == old(tables.items) +
                            BatchedManyToManyFragments(node, batchScope, joinCondition, ks, os, sh)
  {
    var junction := node.junction.value;
    var lateralJoinCondition := BatchKeyCondition(junction.alias, junction.sqlBatch.value, batchScope, sh);
    var pagingWhereConditions := [Some(lateralJoinCondition)];
    if junction.where.Some? {
      pagingWhereConditions := pagingWhereConditions + [junction.where.value(Quote(junction.alias))];
    }
    if node.where.Some? {
      pagingWhereConditions := pagingWhereConditions + [node.where.value(Quote(node.alias))];
    }
    assert pagingWhereConditions == [Some(lateralJoinCondition)] +
                                    ManyToManyWhereConds(node, Quote(junction.alias), Quote(node.alias));
    tables.Push(TempTable(batchScope, junction.sqlBatch.value.parentKey));
    assert tables.items == old(tables.items) + [TempTable(batchScope, junction.sqlBatch.value.parentKey)];
    var lateralJoinOptions := SelectOptions(Some(lateralJoinCondition), Some("LEFT"), None, None);
    if node.where.Some? || node.hasOrderBy {
      lateralJoinOptions := lateralJoinOptions.(extraJoin := Some(ExtraJoin(node.name, node.alias, joinCondition)));
    }
    assert lateralJoinOptions == LeftJoinOn(lateralJoinCondition, ExtraJoinFor(node, joinCondition));
    // a sort key on either table pages by keyset, an order-by by offset
    PushPagedSelect(ManyToManyMode(node), junction.sqlTable, junction.alias, pagingWhereConditions,
                    lateralJoinOptions, ks, os, sh, tables);
    ghost var temp := [TempTable(batchScope, junction.sqlBatch.value.parentKey)];
    ghost var paged :=
      PagedSelect(ManyToManyMode(node), junction.sqlTable, junction.alias, pagingWhereConditions, lateralJoinOptions,
                  ks, os, sh);
    assert tables.items == old(tables.items) + temp + paged;
    assert BatchedManyToManyFragments(node, batchScope, joinCondition, ks, os, sh) ==
           temp + paged + [ChildJoin(node, joinCondition)];
    ghost var before := tables.items;
    tables.Push(ChildJoin(node, joinCondition));
    assert tables.items == before + [ChildJoin(node, joinCondition)];
    AppendRegroup(old(tables.items), temp, paged, [ChildJoin(node, joinCondition)]);
  }

  /** Pushes the paging select the mode calls for, or nothing when the node is not paged. */
  method PushPagedSelect(mode: Mode, table: string, alias: string, conds: seq<Cond>, opts: SelectOptions,
                         ks: KeysetPaging, os: OffsetPaging, sh: Shared, tables: Tables)
    modifies tables
    ensures tables.items == old(tables.items) + PagedSelect(mode, table, alias, conds, opts, ks, os, sh)
  {
    if mode == Keyset {
      tables.Push(sh.keysetPagingSelect(table, conds + [ks.whereCondition], ks.order, ks.limit, alias, opts));
    } else if mode == Offset {
      tables.Push(sh.offsetPagingSelect(table, conds, os.order, os.limit, os.offset, alias, opts));
    }
  }

  method HandleJoinedManyToManyPaginated(parentAlias: string, node: Node, joinCondition1: string,
                                         joinCondition2: string, ks: KeysetPaging, os: OffsetPaging,
                                         sh: Shared, tables: Tables)
    requires node.junction.Some?
    modifies tables
    ensures tables.items == old(tables.items) +
                            JoinedManyToManyFragments(parentAlias, node, joinCondition1, joinCondition2, ks, os, sh)
  {
    var junction := node.junction.value;
    var pagingWhereConditions := [junction.sqlJoinFromParent(Quote(parentAlias), Quote(junction.alias))];
    if junction.where.Some? {
      pagingWhereConditions := pagingWhereConditions + [junction.where.value(Quote(junction.alias))];
    }
    if node.where.Some? {
      pagingWhereConditions := pagingWhereConditions + [node.where.value(Quote(node.alias))];
    }
    assert pagingWhereConditions ==
           [junction.sqlJoinFromParent(Quote(parentAlias), Quote(junction.alias))] +
           ManyToManyWhereConds(node, Quote(junction.alias), Quote(node.alias));
    var lateralJoinOptions := SelectOptions(Some(joinCondition1), Some("LEFT"), None, None);
    if node.where.Some? || node.hasOrderBy {
      lateralJoinOptions := lateralJoinOptions.(extraJoin := Some(ExtraJoin(node.name, node.alias, joinCondition2)));
    }
    if node.hasSortKey || junction.hasSortKey {
      pagingWhereConditions := pagingWhereConditions + [ks.whereCondition];
      tables.Push(sh.keysetPagingSelect(junction.sqlTable, pagingWhereConditions, ks.order, ks.limit,
                                        junction.alias, lateralJoinOptions));
    } else if node.hasOrderBy || junction.hasOrderBy {
      tables.Push(sh.offsetPagingSelect(junction.sqlTable, pagingWhereConditions, os.order, os.limit,
                                        os.offset, junction.alias, lateralJoinOptions));
    }
  }

  method HandleBatchedOneToManyPaginated(node: Node, batchScope: seq<string>, ks: KeysetPaging,
                                         os: OffsetPaging, sh: Shared, tables: Tables)
    requires node.sqlBatch.Some?
    modifies tables
    ensures tables.items == old(tables.items) + BatchedOneToManyFragments(node, batchScope, ks, os, sh)
  {
    var sqlBatch := node.sqlBatch.value;
    var lateralJoinCondition := BatchKeyCondition(node.alias, sqlBatch, batchScope, sh);
    var pagingWhereConditions := [Some(lateralJoinCondition)];
    if node.where.Some? {
      pagingWhereConditions := pagingWhereConditions + [node.where.value(Quote(node.alias))];
    }
    assert pagingWhereConditions == [Some(lateralJoinCondition)] + WhereConds(node.where, Quote(node.alias));
    tables.Push(TempTable(batchScope, sqlBatch.parentKey));
    // a sort key pages by keyset, an order-by by offset
    PushPagedSelect(OneToManyMode(node), node.name, node.alias, pagingWhereConditions,
                    SelectOptions(Some(lateralJoinCondition), None, None, None), ks, os, sh, tables);
    AppendAssociates(old(tables.items), [TempTable(batchScope, sqlBatch.parentKey)],
                     PagedSelect(OneToManyMode(node), node.name, node.alias, pagingWhereConditions,
                                 SelectOptions(Some(lateralJoinCondition), None, None, None), ks, os, sh));
  }

  // ---- properties of what the handlers append --------------------------------

  /**
   * At the root no join options are passed; in keyset mode the seek condition
   * comes before the `where` result, in offset mode the `where` result alone
   * is passed.
   */
  lemma RootPagedSelect(node: Node, ks: KeysetPaging, os: OffsetPaging, sh: Shared)
    requires node.hasSortKey || node.hasOrderBy
    ensures var whereConds := WhereConds(node.where, Quote(node.alias));
      RootFragments(node, ks, os, sh) ==
      if node.hasSortKey then [sh.keysetPagingSelect(node.name, [ks.whereCondition] + whereConds, ks.order, ks.limit,
                                                      node.alias, NoOptions)]
      else [sh.offsetPagingSelect(node.name, whereConds, os.order, os.limit, os.offset, node.alias, NoOptions)]
  {
  }

  /**
   * The joined one-to-many handler pages the child table under a `LEFT`
   * lateral join on the given condition: the `sqlJoin` result comes first,
   * then the `where` result, then, in keyset mode only, the seek condition.
   */
  lemma JoinedOneToManyPagedSelect(parentAlias: string, node: Node, joinCondition: string, ks: KeysetPaging,
                                   os: OffsetPaging, sh: Shared)
    requires node.hasSortKey || node.hasOrderBy
    ensures var conds := [node.sqlJoin(Quote(parentAlias), Quote(node.alias))] +
                         WhereConds(node.where, Quote(node.alias));
      var opts := SelectOptions(Some(joinCondition), Some("LEFT"), None, None);
      JoinedOneToManyFragments(parentAlias, node, joinCondition, ks, os, sh) ==
      if node.hasSortKey then [sh.keysetPagingSelect(node.name, conds + [ks.whereCondition], ks.order, ks.limit,
                                                      node.alias, opts)]
      else [sh.offsetPagingSelect(node.name, conds, os.order, os.limit, os.offset, node.alias, opts)]
  {
  }

  /**
   * The joined many-to-many handler pages the junction table under a `LEFT`
   * lateral join on the first condition: the junction's `sqlJoins[0]` result,
   * then the junction's and the node's `where` results; the child table is
   * joined inside, on the second condition, when the node has a `where` or an
   * order-by. A sort key on either side pages by keyset.
   */
  lemma JoinedManyToManyPagedSelect(parentAlias: string, node: Node, joinCondition1: string, joinCondition2: string,
                                    ks: KeysetPaging, os: OffsetPaging, sh: Shared)
    requires node.junction.Some?
    requires node.hasSortKey || node.junction.value.hasSortKey || node.hasOrderBy || node.junction.value.hasOrderBy
    ensures var j := node.junction.value;
      var conds := [j.sqlJoinFromParent(Quote(parentAlias), Quote(j.alias))] +
                   ManyToManyWhereConds(node, Quote(j.alias), Quote(node.alias));
      var opts := SelectOptions(Some(joinCondition1), Some("LEFT"), ExtraJoinFor(node, joinCondition2), None);
      JoinedManyToManyFragments(parentAlias, node, joinCondition1, joinCondition2, ks, os, sh) ==
      if node.hasSortKey || j.hasSortKey then [sh.keysetPagingSelect(j.sqlTable, conds + [ks.whereCondition], ks.order,
                                                                     ks.limit, j.alias, opts)]
      else [sh.offsetPagingSelect(j.sqlTable, conds, os.order, os.limit, os.offset, j.alias, opts)]
  {
  }

  /**
   * In the batched one-to-many handler the batch-key equality is the first
   * paging condition and, character for character, the lateral join
   * condition; no join type is passed. A sort key pages by keyset, otherwise
   * an order-by by offset.
   */
  lemma BatchedOneToManyPagedSelect(node: Node, batchScope: seq<string>, ks: KeysetPaging, os: OffsetPaging,
                                    sh: Shared)
    requires node.sqlBatch.Some? && (node.hasSortKey || node.hasOrderBy)
    ensures var keyCond := BatchKeyCondition(node.alias, node.sqlBatch.value, batchScope, sh);
      var conds := [Some(keyCond)] + WhereConds(node.where, Quote(node.alias));
      var opts := SelectOptions(Some(keyCond), None, None, None);
      BatchedOneToManyFragments(node, batchScope, ks, os, sh)[1] ==
      if node.hasSortKey then sh.keysetPagingSelect(node.name, conds + [ks.whereCondition], ks.order, ks.limit,
                                                     node.alias, opts)
      else sh.offsetPagingSelect(node.name, conds, os.order, os.limit, os.offset, node.alias, opts)
  {
  }

  /**
   * The same for the batched many-to-many handler, on the junction table: the
   * batch-key equality over the junction alias comes first and is the
   * `LEFT` lateral join condition, followed by the junction's and then the
   * node's `where` results; a sort key on either side pages by keyset.
   */
  lemma BatchedManyToManyPagedSelect(node: Node, batchScope: seq<string>, joinCondition: string, ks: KeysetPaging,
                                     os: OffsetPaging, sh: Shared)
    requires node.junction.Some? && node.junction.value.sqlBatch.Some?
    requires node.hasSortKey || node.junction.value.hasSortKey || node.hasOrderBy || node.junction.value.hasOrderBy
    ensures var j := node.junction.value;
      var keyCond := BatchKeyCondition(j.alias, j.sqlBatch.value, batchScope, sh);
      var conds := [Some(keyCond)] + ManyToManyWhereConds(node, Quote(j.alias), Quote(node.alias));
      var opts := SelectOptions(Some(keyCond), Some("LEFT"), ExtraJoinFor(node, joinCondition), None);
      BatchedManyToManyFragments(node, batchScope, joinCondition, ks, os, sh)[1] ==
      if node.hasSortKey || j.hasSortKey then sh.keysetPagingSelect(j.sqlTable, conds + [ks.whereCondition], ks.order,
                                                                    ks.limit, j.alias, opts)
      else sh.offsetPagingSelect(j.sqlTable, conds, os.order, os.limit, os.offset, j.alias, opts)
  {
  }
}
