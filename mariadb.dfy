/**
 * The MariaDB dialect: backtick quoting, an unguarded variadic CONCAT for
 * composite keys, and batched fan-out as one bounded sub-select per parent
 * key, combined with UNION. The joined handlers are not defined here, so the
 * not-supported stubs answer them; `unlimitedLimit` is the max-uint64 mixin's.
 */
module MariaDB {
  import opened Wrappers
  import opened Text
  import opened Classes
  import opened Plan
  import UnlimitedLimitIsMaxint
  import PaginationNotSupported

  const Name: string := "mariadb"

  /**
   * `class Dialect extends UnlimitedLimitIsMaxint(PaginationNotSupported(function () { }))`:
   * its own name, quoting, keys, root handler and both batched handlers.
   */
  const Class: Proto :=
    Extend(UnlimitedLimitIsMaxint.Apply(PaginationNotSupported.Apply(EmptyBase)),
           map[Member.Name := MariaDBCode, Member.Quote := MariaDBCode, Member.CompositeKey := MariaDBCode,
               Member.HandlePaginationAtRoot := MariaDBCode,
               Member.HandleBatchedOneToManyPaginated := MariaDBCode,
               Member.HandleBatchedManyToManyPaginated := MariaDBCode])

  /** `` `str` ``: the identifier between backticks, unchanged. */
  function Quote(s: string): (r: string)
    ensures |r| == |s| + 2 && r[0] == '`' && r[|r| - 1] == '`'
    ensures r[1..|r| - 1] == s
  {
    "`" + s + "`"
  }

  /**
   * `CONCAT(`p`.`k1`, …, `p`.`kn`)`, with no NULLIF guard: it opens with the
   * first key column and closes after the last.
   */
  function CompositeKey(parent: string, keys: seq<string>): (r: string)
    ensures |keys| == 0 ==> r == "CONCAT()"
    ensures |keys| >= 1 ==> "CONCAT(" + (Quote(parent) + "." + Quote(keys[0])) <= r
    ensures |keys| >= 1 ==> EndsWith(r, Quote(parent) + "." + Quote(keys[|keys| - 1]) + ")")
  {
    if |keys| >= 1 then
      WrappedJoinFrame("CONCAT(", QualifiedKeys(Quote, parent, keys), ", ", ")");
      "CONCAT(" + Join(QualifiedKeys(Quote, parent, keys), ", ") + ")"
    else
      "CONCAT(" + Join(QualifiedKeys(Quote, parent, keys), ", ") + ")"
  }

  /** One key is the whole argument list; each further key is appended after ", ", in order. */
  lemma {:induction false} CompositeKeyKeyOrder(parent: string, keys: seq<string>, key: string)
    ensures CompositeKey(parent, [key]) == "CONCAT(" + (Quote(parent) + "." + Quote(key)) + ")"
    ensures |keys| >= 1 ==>
      CompositeKey(parent, keys + [key]) ==
      "CONCAT(" + (Join(QualifiedKeys(Quote, parent, keys), ", ") + ", " + (Quote(parent) + "." + Quote(key))) + ")"
  {
    var q := Quote(parent) + "." + Quote(key);
    assert QualifiedKeys(Quote, parent, [key]) == [q];
    if |keys| >= 1 {
      assert QualifiedKeys(Quote, parent, keys + [key]) == QualifiedKeys(Quote, parent, keys) + [q];
      JoinSnoc(QualifiedKeys(Quote, parent, keys), q, ", ");
    }
  }

  // ---- the per-key sub-selects and their union -------------------------------

  /**
   * `joinUnions(unions, as)`: the sub-selects separated by UNION lines, as a
   * derived table named after the alias; the first sub-select opens it and the
   * last closes it.
   */
  function JoinUnions(unions: seq<string>, alias: string): (r: string)
    ensures |unions| >= 1 ==> "FROM (\n  " + unions[0] <= r
    ensures |unions| >= 1 ==> EndsWith(r, unions[|unions| - 1] + ("\n  ) AS " + Quote(alias)))
    ensures EndsWith(r, "\n  ) AS " + Quote(alias))
  {
    var r := "FROM (\n  " + Join(unions, "\nUNION\n") + "\n  ) AS " + Quote(alias);
    assert r == "FROM (\n  " + Join(unions, "\nUNION\n") + ("\n  ) AS " + Quote(alias));
    assert r[|r| - |"\n  ) AS " + Quote(alias)|..] == "\n  ) AS " + Quote(alias);
    if |unions| >= 1 then
      WrappedJoinFrame("FROM (\n  ", unions, "\nUNION\n", "\n  ) AS " + Quote(alias));
      r
    else
      r
  }

  /** Each further sub-select adds one UNION line before it; an empty batch leaves an empty derived table. */
  lemma JoinUnionsOnePerMember(unions: seq<string>, u: string, alias: string)
    ensures JoinUnions([], alias) == "FROM (\n  " + "" + "\n  ) AS " + Quote(alias)
    ensures JoinUnions([u], alias) == "FROM (\n  " + u + "\n  ) AS " + Quote(alias)
    ensures |unions| >= 1 ==>
      JoinUnions(unions + [u], alias) ==
      "FROM (\n  " + (Join(unions, "\nUNION\n") + "\nUNION\n" + u) + "\n  ) AS " + Quote(alias)
  {
    if |unions| >= 1 {
      JoinSnoc(unions, u, "\nUNION\n");
    }
  }

  /** `${offset ? ' OFFSET ' + offset : ''}`: `null` and 0 are falsy and omit the clause. */
  function OffsetClause(offset: Option<nat>): (r: string)
    ensures r != "" <==> offset.Some? && offset.value != 0
  {
    if offset.Some? && offset.value != 0 then " OFFSET " + NatToString(offset.value) else ""
  }

  /** The window column that counts every matching row, aliased `` `$total` ``. */
  const TotalColumn: string := ", count(*) OVER () AS `$total`"

  /** The `extraJoin` line, empty when there is no extra join. */
  function ExtraJoinText(extraJoin: Option<ExtraJoin>): (r: string) {
    if extraJoin.Some? then
      "LEFT JOIN " + extraJoin.value.name + " " + Quote(extraJoin.value.alias) + "\n      ON " + extraJoin.value.condition
    else ""
  }

  /**
   * The six elements of a `paginatedSelect`, joined by line breaks; the extra
   * join element holds a line break of its own.
   */
  function PaginatedLines(table: string, alias: string, whereConditions: string, order: Order, limit: string,
                          offset: Option<nat>, extraJoin: Option<ExtraJoin>, withTotal: bool,
                          sh: Shared): (r: seq<string>)
    ensures |r| == 6
    ensures r[1] == "    FROM " + table + " " + Quote(alias)
    ensures r[2] == "    " + ExtraJoinText(extraJoin)
    ensures r[3] == "    WHERE " + whereConditions
    ensures EndsWith(r[5], OffsetClause(offset) + ")")
  {
    var as_ := Quote(alias);
    ["    (SELECT " + as_ + ".*" + (if withTotal then TotalColumn else ""),
     "    FROM " + table + " " + as_,
     "    " + ExtraJoinText(extraJoin),
     "    WHERE " + whereConditions,
     "    ORDER BY " + sh.orderingsToString(order.columns, Backticks, order.table),
     "    LIMIT " + limit + OffsetClause(offset) + ")"]
  }

  /** `paginatedSelect(table, as, whereConditions, order, limit, offset, { extraJoin, withTotal })`. */
  function PaginatedSelect(table: string, alias: string, whereConditions: string, order: Order, limit: string,
                           offset: Option<nat>, extraJoin: Option<ExtraJoin>, withTotal: bool,
                           sh: Shared): (r: string)
    ensures "    (SELECT " + Quote(alias) + ".*" <= r
    ensures EndsWith(r, OffsetClause(offset) + ")")
  {
    var lines := PaginatedLines(table, alias, whereConditions, order, limit, offset, extraJoin, withTotal, sh);
    JoinFrame(lines, "\n");
    var r := Join(lines, "\n");
    EndsWithTransitive(r, lines[5], OffsetClause(offset) + ")");
    r
  }

  /**
   * The `$total` column follows the select list exactly when `withTotal` is
   * set, and the sub-select closes with ` OFFSET n)` exactly when the offset is
   * a nonzero number, with `LIMIT limit)` otherwise.
   */
  lemma PaginatedSelectTotalAndOffset(table: string, alias: string, whereConditions: string, order: Order,
                                      limit: string, offset: Option<nat>, extraJoin: Option<ExtraJoin>,
                                      withTotal: bool, sh: Shared)
    ensures var s := PaginatedSelect(table, alias, whereConditions, order, limit, offset, extraJoin, withTotal, sh);
      (if withTotal then "    (SELECT " + Quote(alias) + ".*" + TotalColumn + "\n"
       else "    (SELECT " + Quote(alias) + ".*" + "\n") <= s
    ensures var s := PaginatedSelect(table, alias, whereConditions, order, limit, offset, extraJoin, withTotal, sh);
      if offset.Some? && offset.value != 0 then EndsWith(s, " OFFSET " + NatToString(offset.value) + ")")
      else EndsWith(s, "    LIMIT " + limit + ")")
  {
    var lines := PaginatedLines(table, alias, whereConditions, order, limit, offset, extraJoin, withTotal, sh);
    JoinSecondStartsAfterSeparator(lines, "\n");
    if offset.Some? && offset.value != 0 {
      assert OffsetClause(offset) + ")" == " OFFSET " + NatToString(offset.value) + ")";
    } else {
      JoinFrame(lines, "\n");
      assert lines[5] == "    LIMIT " + limit + ")";
    }
    if withTotal {
      assert lines[0] == "    (SELECT " + Quote(alias) + ".*" + TotalColumn;
    } else {
      assert lines[0] == "    (SELECT " + Quote(alias) + ".*";
    }
  }

  /** The batch-key equality for one value: `` `as`.`thisKey` = val ``. */
  function KeyEquality(alias: string, thisKey: string, value: string): (r: string)
    ensures r != ""
  {
    Quote(alias) + "." + Quote(thisKey) + " = " + value
  }

  /**
   * `batchScope.map(val => paginatedSelect(…))`: one sub-select per batch
   * value, whose WHERE is the shared conditions plus that value's key
   * equality, filtered and joined by AND, `'1'` when nothing remains.
   */
  function UnionMembers(table: string, alias: string, shared: seq<Cond>, keyAlias: string, thisKey: string,
                        batchScope: seq<string>, order: Order, limit: string, offset: Option<nat>,
                        extraJoin: Option<ExtraJoin>, withTotal: bool, sh: Shared): (r: seq<string>)
    ensures |r| == |batchScope|
  {
    seq(|batchScope|, i requires 0 <= i < |batchScope| =>
      PaginatedSelect(table, alias, WhereClause(shared + [Some(KeyEquality(keyAlias, thisKey, batchScope[i]))], "1"),
                      order, limit, offset, extraJoin, withTotal, sh))
  }

  /**
   * Member i of the union is the sub-select for batch value i, and its WHERE
   * is the truthy shared conditions followed by that value's key equality,
   * which is never dropped.
   */
  lemma UnionMemberForEachValue(table: string, alias: string, shared: seq<Cond>, keyAlias: string,
                                thisKey: string, batchScope: seq<string>, order: Order, limit: string,
                                offset: Option<nat>, extraJoin: Option<ExtraJoin>, withTotal: bool,
                                sh: Shared, i: nat)
    requires i < |batchScope|
    ensures UnionMembers(table, alias, shared, keyAlias, thisKey, batchScope, order, limit, offset,
                         extraJoin, withTotal, sh)[i] ==
            PaginatedSelect(table, alias,
                            if Compact(shared) == [] then KeyEquality(keyAlias, thisKey, batchScope[i])
                            else Join(Compact(shared), " AND ") + " AND " + KeyEquality(keyAlias, thisKey, batchScope[i]),
                            order, limit, offset, extraJoin, withTotal, sh)
  {
    WhereClauseWithLast(shared, KeyEquality(keyAlias, thisKey, batchScope[i]), "1");
  }

  /** Adding a batch value adds exactly its own sub-select, at the end. */
  lemma UnionMembersSnoc(table: string, alias: string, shared: seq<Cond>, keyAlias: string, thisKey: string,
                         batchScope: seq<string>, v: string, order: Order, limit: string, offset: Option<nat>,
                         extraJoin: Option<ExtraJoin>, withTotal: bool, sh: Shared)
    ensures UnionMembers(table, alias, shared, keyAlias, thisKey, batchScope + [v], order, limit, offset,
                         extraJoin, withTotal, sh) ==
            UnionMembers(table, alias, shared, keyAlias, thisKey, batchScope, order, limit, offset,
                         extraJoin, withTotal, sh) +
            UnionMembers(table, alias, shared, keyAlias, thisKey, [v], order, limit, offset,
                         extraJoin, withTotal, sh)
  {
  }

  // ---- what each handler appends --------------------------------------------

  /** The options `{ q: this.quote }` handed to the shared renderers at the root. */
  const RootOptions: SelectOptions := SelectOptions(None, None, None, Some(Backticks))

  /** `handlePaginationAtRoot`: as Postgres's, but hooks see backtick aliases and the renderers get `q`. */
  function RootFragments(node: Node, ks: KeysetPaging, os: OffsetPaging, sh: Shared): (r: seq<string>)
    ensures |r| == (if OneToManyMode(node) == Unpaged then 0 else 1)
    ensures OneToManyMode(node) == Keyset ==>
      r == [sh.keysetPagingSelect(node.name, [ks.whereCondition] + WhereConds(node.where, Quote(node.alias)),
                                  ks.order, ks.limit, node.alias, RootOptions)]
    ensures OneToManyMode(node) == Offset ==>
      r == [sh.offsetPagingSelect(node.name, WhereConds(node.where, Quote(node.alias)),
                                  os.order, os.limit, os.offset, node.alias, RootOptions)]
  {
    var whereConds := WhereConds(node.where, Quote(node.alias));
    match OneToManyMode(node)
    case Keyset =>
      [sh.keysetPagingSelect(node.name, [ks.whereCondition] + whereConds, ks.order, ks.limit, node.alias, RootOptions)]
    case Offset =>
      [sh.offsetPagingSelect(node.name, whereConds, os.order, os.limit, os.offset, node.alias, RootOptions)]
    case Unpaged => []
  }

  /**
   * The union fragment a batched handler pushes, if any: keyset appends the
   * interpreter's condition to the shared ones and passes offset `null` and no
   * total; offset passes the offset and `withTotal: true`.
   */
  function BatchedUnion(mode: Mode, table: string, alias: string, shared: seq<Cond>, thisKey: string,
                        batchScope: seq<string>, extraJoin: Option<ExtraJoin>, ks: KeysetPaging,
                        os: OffsetPaging, sh: Shared): (r: seq<string>)
    ensures |r| == (if mode == Unpaged then 0 else 1)
    ensures mode != Unpaged ==> EndsWith(r[0], "\n  ) AS " + Quote(alias))
  {
    match mode
    case Keyset =>
      [JoinUnions(UnionMembers(table, alias, shared + [ks.whereCondition], alias, thisKey, batchScope,
                               ks.order, ks.limit, None, extraJoin, false, sh), alias)]
    case Offset =>
      [JoinUnions(UnionMembers(table, alias, shared, alias, thisKey, batchScope,
                               os.order, os.limit, Some(os.offset), extraJoin, true, sh), alias)]
    case Unpaged => []
  }

  /** `handleBatchedOneToManyPaginated`: one union over the node's table, or nothing. */
  function BatchedOneToManyFragments(node: Node, batchScope: seq<string>, ks: KeysetPaging,
                                     os: OffsetPaging, sh: Shared): (r: seq<string>)
    requires node.sqlBatch.Some?
    ensures |r| == (if OneToManyMode(node) == Unpaged then 0 else 1)
  {
    BatchedUnion(OneToManyMode(node), node.name, node.alias, WhereConds(node.where, Quote(node.alias)),
                 node.sqlBatch.value.thisKey, batchScope, None, ks, os, sh)
  }

  /** The join to the child table closing a batched many-to-many fan-out. */
  function ChildJoin(node: Node, joinCondition: string): (r: string) {
    "LEFT JOIN " + node.name + " AS " + Quote(node.alias) + " ON " + joinCondition
  }

  /**
   * `handleBatchedManyToManyPaginated`: one union over the junction table (its
   * where result before the node's, `extraJoin` when the node has a where or
   * an orderBy), then always the join to the child table.
   */
  function BatchedManyToManyFragments(node: Node, batchScope: seq<string>, joinCondition: string,
                                      ks: KeysetPaging, os: OffsetPaging, sh: Shared): (r: seq<string>)
    requires node.junction.Some? && node.junction.value.sqlBatch.Some?
    ensures |r| == (if ManyToManyMode(node) == Unpaged then 1 else 2)
    ensures r[|r| - 1] == ChildJoin(node, joinCondition)
  {
    var j := node.junction.value;
    BatchedUnion(ManyToManyMode(node), j.sqlTable, j.alias,
                 ManyToManyWhereConds(node, Quote(j.alias), Quote(node.alias)),
                 j.sqlBatch.value.thisKey, batchScope, ExtraJoinFor(node, joinCondition), ks, os, sh) +
    [ChildJoin(node, joinCondition)]
  }

  /**
   * Every member of a union carries the `$total` column exactly when
   * `withTotal` is set, and ends with ` OFFSET n)` exactly when the offset is a
   * nonzero number.
   */
  lemma UnionMemberShape(table: string, alias: string, shared: seq<Cond>, keyAlias: string, thisKey: string,
                         batchScope: seq<string>, order: Order, limit: string, offset: Option<nat>,
                         extraJoin: Option<ExtraJoin>, withTotal: bool, sh: Shared, i: nat)
    requires i < |batchScope|
    ensures var m := UnionMembers(table, alias, shared, keyAlias, thisKey, batchScope, order, limit, offset,
                                  extraJoin, withTotal, sh)[i];
      (if withTotal then "    (SELECT " + Quote(alias) + ".*" + TotalColumn + "\n"
       else "    (SELECT " + Quote(alias) + ".*" + "\n") <= m &&
      if offset.Some? && offset.value != 0 then EndsWith(m, " OFFSET " + NatToString(offset.value) + ")")
      else EndsWith(m, "    LIMIT " + limit + ")")
  {
    PaginatedSelectTotalAndOffset(table, alias,
                                  WhereClause(shared + [Some(KeyEquality(keyAlias, thisKey, batchScope[i]))], "1"),
                                  order, limit, offset, extraJoin, withTotal, sh);
  }

  /**
   * The WHERE of a union member: the truthy conditions joined by AND, then the
   * member's key equality, which is always kept.
   */
  lemma MemberWhere(conds: seq<Cond>, keyEquality: string)
    requires keyEquality != ""
    ensures WhereClause(conds + [Some(keyEquality)], "1") == Join(Compact(conds) + [keyEquality], " AND ")
  {
    WhereClauseWithLast(conds, keyEquality, "1");
    if Compact(conds) != [] {
      JoinSnoc(Compact(conds), keyEquality, " AND ");
    }
  }

  /**
   * A member of a keyset union (offset `null`, no total): it selects the
   * alias's columns without `$total`, filters on the truthy shared conditions,
   * then the seek condition, then its own value's key equality, and ends
   * `LIMIT limit)` with no OFFSET.
   */
  lemma KeysetUnionMember(table: string, alias: string, shared: seq<Cond>, seek: Cond, thisKey: string,
                          batchScope: seq<string>, order: Order, limit: string, extraJoin: Option<ExtraJoin>,
                          sh: Shared, i: nat)
    requires i < |batchScope|
    ensures var m := UnionMembers(table, alias, shared + [seek], alias, thisKey, batchScope, order, limit, None,
                                  extraJoin, false, sh)[i];
      m == PaginatedSelect(table, alias,
                           Join(Compact(shared) + Compact([seek]) + [KeyEquality(alias, thisKey, batchScope[i])], " AND "),
                           order, limit, None, extraJoin, false, sh) &&
      "    (SELECT " + Quote(alias) + ".*" + "\n" <= m &&
      EndsWith(m, "    LIMIT " + limit + ")")
  {
    var k := KeyEquality(alias, thisKey, batchScope[i]);
    MemberWhere(shared + [seek], k);
    CompactAppend(shared, [seek]);
    UnionMemberShape(table, alias, shared + [seek], alias, thisKey, batchScope, order, limit, None,
                     extraJoin, false, sh, i);
  }

  /**
   * A member of an offset union (the offset, `withTotal: true`): it selects
   * the alias's columns and `$total`, filters on the truthy shared conditions,
   * then its own value's key equality, and ends with the OFFSET clause.
   */
  lemma OffsetUnionMember(table: string, alias: string, shared: seq<Cond>, thisKey: string,
                          batchScope: seq<string>, order: Order, limit: string, offset: nat,
                          extraJoin: Option<ExtraJoin>, sh: Shared, i: nat)
    requires i < |batchScope|
    ensures var m := UnionMembers(table, alias, shared, alias, thisKey, batchScope, order, limit, Some(offset),
                                  extraJoin, true, sh)[i];
      m == PaginatedSelect(table, alias, Join(Compact(shared) + [KeyEquality(alias, thisKey, batchScope[i])], " AND "),
                           order, limit, Some(offset), extraJoin, true, sh) &&
      "    (SELECT " + Quote(alias) + ".*" + TotalColumn + "\n" <= m &&
      EndsWith(m, OffsetClause(Some(offset)) + ")")
  {
    MemberWhere(shared, KeyEquality(alias, thisKey, batchScope[i]));
    UnionMemberShape(table, alias, shared, alias, thisKey, batchScope, order, limit, Some(offset),
                     extraJoin, true, sh, i);
  }

  /**
   * A paged batched one-to-many handler pushes one union over the node's
   * table, one member per batch value: in keyset mode over the `where` result
   * and then the seek condition, with offset `null` and no total; in offset
   * mode over the `where` result alone, with the offset and `$total`.
   */
  lemma BatchedOneToManyUnion(node: Node, batchScope: seq<string>, ks: KeysetPaging, os: OffsetPaging, sh: Shared)
    requires node.sqlBatch.Some?
    ensures var conds := WhereConds(node.where, Quote(node.alias));
      OneToManyMode(node) == Keyset ==>
      BatchedOneToManyFragments(node, batchScope, ks, os, sh) ==
      [JoinUnions(UnionMembers(node.name, node.alias, conds + [ks.whereCondition], node.alias,
                               node.sqlBatch.value.thisKey, batchScope, ks.order, ks.limit, None, None, false, sh),
                  node.alias)]
    ensures var conds := WhereConds(node.where, Quote(node.alias));
      OneToManyMode(node) == Offset ==>
      BatchedOneToManyFragments(node, batchScope, ks, os, sh) ==
      [JoinUnions(UnionMembers(node.name, node.alias, conds, node.alias, node.sqlBatch.value.thisKey, batchScope,
                               os.order, os.limit, Some(os.offset), None, true, sh),
                  node.alias)]
  {
  }

  /**
   * A paged batched many-to-many handler pushes one union over the junction
   * table, one member per batch value, then the child join: in keyset mode
   * over the junction's and the node's `where` results and then the seek
   * condition, with offset `null` and no total; in offset mode over the
   * `where` results alone, with the offset and `$total`.
   */
  lemma BatchedManyToManyUnion(node: Node, batchScope: seq<string>, joinCondition: string,
                               ks: KeysetPaging, os: OffsetPaging, sh: Shared)
    requires node.junction.Some? && node.junction.value.sqlBatch.Some?
    ensures var j := node.junction.value;
      var conds := ManyToManyWhereConds(node, Quote(j.alias), Quote(node.alias));
      ManyToManyMode(node) == Keyset ==>
      BatchedManyToManyFragments(node, batchScope, joinCondition, ks, os, sh) ==
      [JoinUnions(UnionMembers(j.sqlTable, j.alias, conds + [ks.whereCondition], j.alias, j.sqlBatch.value.thisKey,
                               batchScope, ks.order, ks.limit, None, ExtraJoinFor(node, joinCondition), false, sh),
                  j.alias),
       ChildJoin(node, joinCondition)]
    ensures var j := node.junction.value;
      var conds := ManyToManyWhereConds(node, Quote(j.alias), Quote(node.alias));
      ManyToManyMode(node) == Offset ==>
      BatchedManyToManyFragments(node, batchScope, joinCondition, ks, os, sh) ==
      [JoinUnions(UnionMembers(j.sqlTable, j.alias, conds, j.alias, j.sqlBatch.value.thisKey, batchScope,
                               os.order, os.limit, Some(os.offset), ExtraJoinFor(node, joinCondition), true, sh),
                  j.alias),
       ChildJoin(node, joinCondition)]
  {
  }

  // ---- the handlers, pushing onto the caller's list -------------------------

  method HandlePaginationAtRoot(node: Node, ks: KeysetPaging, os: OffsetPaging, sh: Shared, tables: Tables)
    modifies tables
    ensures tables.items == old(tables.items) + RootFragments(node, ks, os, sh)
  {
    var pagingWhereConditions: seq<Cond> := [];
    if node.hasSortKey {
      pagingWhereConditions := pagingWhereConditions + [ks.whereCondition];
      if node.where.Some? {
        pagingWhereConditions := pagingWhereConditions + [node.where.value(Quote(node.alias))];
      }
      assert pagingWhereConditions == [ks.whereCondition] + WhereConds(node.where, Quote(node.alias));
      tables.Push(sh.keysetPagingSelect(node.name, pagingWhereConditions, ks.order, ks.limit, node.alias,
                                        SelectOptions(None, None, None, Some(Backticks))));
    } else if node.hasOrderBy {
      if node.where.Some? {
        pagingWhereConditions := pagingWhereConditions + [node.where.value(Quote(node.alias))];
      }
      assert pagingWhereConditions == WhereConds(node.where, Quote(node.alias));
      tables.Push(sh.offsetPagingSelect(node.name, pagingWhereConditions, os.order, os.limit, os.offset,
                                        node.alias, SelectOptions(None, None, None, Some(Backticks))));
    }
  }

  method HandleBatchedOneToManyPaginated(node: Node, batchScope: seq<string>, ks: KeysetPaging,
                                         os: OffsetPaging, sh: Shared, tables: Tables)
    requires node.sqlBatch.Some?
    modifies tables
    ensures tables.items == old(tables.items) + BatchedOneToManyFragments(node, batchScope, ks, os, sh)
  {
    var pagingWhereConditions: seq<Cond> := [];
    if node.where.Some? {
      pagingWhereConditions := pagingWhereConditions + [node.where.value(Quote(node.alias))];
    }
    assert pagingWhereConditions == WhereConds(node.where, Quote(node.alias));
    // a sort key pages by keyset, an order-by by offset; one select per batch key
    PushBatchedUnion(OneToManyMode(node), node.name, node.alias, pagingWhereConditions,
                     node.sqlBatch.value.thisKey, batchScope, None, ks, os, sh, tables);
  }

  method HandleBatchedManyToManyPaginated(node: Node, batchScope: seq<string>, joinCondition: string,
                                          ks: KeysetPaging, os: OffsetPaging, sh: Shared, tables: Tables)
    requires node.junction.Some? && node.junction.value.sqlBatch.Some?
    modifies tables
    ensures tables.items == old(tables.items) +
                            BatchedManyToManyFragments(node, batchScope, joinCondition, ks, os, sh)
  {
    var junction := node.junction.value;
    var pagingWhereConditions: seq<Cond> := [];
    if junction.where.Some? {
      pagingWhereConditions := pagingWhereConditions + [junction.where.value(Quote(junction.alias))];
    }
    if node.where.Some? {
      pagingWhereConditions := pagingWhereConditions + [node.where.value(Quote(node.alias))];
    }
    assert pagingWhereConditions == ManyToManyWhereConds(node, Quote(junction.alias), Quote(node.alias));
    var extraJoin: Option<ExtraJoin> := None;
    if node.where.Some? || node.hasOrderBy {
      extraJoin := Some(ExtraJoin(node.name, node.alias, joinCondition));
    }
    // a sort key on either table pages by keyset, an order-by by offset; one select per batch key
    PushBatchedUnion(ManyToManyMode(node), junction.sqlTable, junction.alias, pagingWhereConditions,
                     junction.sqlBatch.value.thisKey, batchScope, extraJoin, ks, os, sh, tables);
    tables.Push(ChildJoin(node, joinCondition));
  }

  /**
   * Pushes the union of per-key selects the mode calls for (`joinUnions` over
   * `batchScope.map(...)`), or nothing when the node is not paged.
   */
  method PushBatchedUnion(mode: Mode, table: string, alias: string, shared: seq<Cond>, thisKey: string,
                          batchScope: seq<string>, extraJoin: Option<ExtraJoin>, ks: KeysetPaging,
                          os: OffsetPaging, sh: Shared, tables: Tables)
    modifies tables
    ensures tables.items == old(tables.items) +
                            BatchedUnion(mode, table, alias, shared, thisKey, batchScope, extraJoin, ks, os, sh)
  {
    if mode == Keyset {
      var unions := UnionMembers(table, alias, shared + [ks.whereCondition], alias, thisKey, batchScope,
                                 ks.order, ks.limit, None, extraJoin, false, sh);
      tables.Push(JoinUnions(unions, alias));
    } else if mode == Offset {
      var unions := UnionMembers(table, alias, shared, alias, thisKey, batchScope,
                                 os.order, os.limit, Some(os.offset), extraJoin, true, sh);
      tables.Push(JoinUnions(unions, alias));
    }
  }
}
