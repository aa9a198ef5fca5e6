/**
 * What a dialect handler is given: the plan node being paginated (with its
 * junction for many-to-many relations), the already-resolved results of the
 * shared pagination interpreters, the shared SQL renderers whose source is not
 * part of this model, and the caller-owned `tables` list the handler appends to.
 */
module Plan {
  import opened Wrappers
  import opened Text

  /** A `where` hook, called with the quoted table alias; its awaited result. */
  type WhereHook = string -> Cond

  /** A `sqlJoin` hook, called with the quoted parent and child aliases; its awaited result. */
  type JoinHook = (string, string) -> Cond

  /** `sqlBatch`: the child-side key column and the parent-side key column. */
  datatype SqlBatch = SqlBatch(thisKey: string, parentKey: string)

  /** The bridge table of a many-to-many relation. */
  datatype Junction = Junction(
    alias: string,                  // junction.as
    sqlTable: string,
    where: Option<WhereHook>,
    hasSortKey: bool,               // junction.sortKey is set
    hasOrderBy: bool,               // junction.orderBy is set
    sqlBatch: Option<SqlBatch>,
    sqlJoinFromParent: JoinHook     // junction.sqlJoins[0]
  )

  /** One relation of the selection tree, as the dialect handlers read it. */
  datatype Node = Node(
    name: string,                   // SQL table name or expression
    alias: string,                  // node.as
    where: Option<WhereHook>,
    hasSortKey: bool,               // keyset pagination requested
    hasOrderBy: bool,               // offset pagination requested
    sqlJoin: JoinHook,
    sqlBatch: Option<SqlBatch>,
    junction: Option<Junction>
  )

  /** `if (hook) { conds.push(await hook(alias)) }`: an absent hook contributes nothing. */
  function WhereConds(hook: Option<WhereHook>, quotedAlias: string): (r: seq<Cond>)
    ensures |r| == (if hook.Some? then 1 else 0)
    ensures hook.Some? ==> r == [hook.value(quotedAlias)]
  {
    if hook.Some? then [hook.value(quotedAlias)] else []
  }

  /** Which pagination a handler renders, chosen from the `sortKey`/`orderBy` settings. */
  datatype Mode = Keyset | Offset | Unpaged

  /** `if (node.sortKey) … else if (node.orderBy) …`. */
  function OneToManyMode(node: Node): (m: Mode)
    ensures m == Keyset <==> node.hasSortKey
    ensures m == Offset <==> !node.hasSortKey && node.hasOrderBy
  {
    if node.hasSortKey then Keyset else if node.hasOrderBy then Offset else Unpaged
  }

  /**
   * `if (node.sortKey || junction.sortKey) … else if (node.orderBy || junction.orderBy) …`:
   * a sort key on either side wins over any `orderBy`.
   */
  function ManyToManyMode(node: Node): (m: Mode)
    requires node.junction.Some?
    ensures m == Keyset <==> node.hasSortKey || node.junction.value.hasSortKey
    ensures m == Offset <==> !node.hasSortKey && !node.junction.value.hasSortKey &&
                             (node.hasOrderBy || node.junction.value.hasOrderBy)
  {
    var j := node.junction.value;
    if node.hasSortKey || j.hasSortKey then Keyset
    else if node.hasOrderBy || j.hasOrderBy then Offset
    else Unpaged
  }

  /**
   * The `where` results a many-to-many handler collects: the junction's
   * first, then the node's. Each hook is called with its own quoted alias.
   */
  function ManyToManyWhereConds(node: Node, junctionAlias: string, nodeAlias: string): (r: seq<Cond>)
    requires node.junction.Some?
    ensures |r| == |WhereConds(node.junction.value.where, junctionAlias)| + |WhereConds(node.where, nodeAlias)|
    ensures node.junction.value.where.Some? ==> r[0] == node.junction.value.where.value(junctionAlias)
    ensures node.where.Some? ==> r[|r| - 1] == node.where.value(nodeAlias)
  {
    WhereConds(node.junction.value.where, junctionAlias) + WhereConds(node.where, nodeAlias)
  }

  /** `if (node.where || node.orderBy) extraJoin = { name, as, condition }`. */
  function ExtraJoinFor(node: Node, condition: string): (r: Option<ExtraJoin>)
    ensures r.Some? <==> node.where.Some? || node.hasOrderBy
    ensures r.Some? ==> r.value == ExtraJoin(node.name, node.alias, condition)
  {
    if node.where.Some? || node.hasOrderBy then Some(ExtraJoin(node.name, node.alias, condition)) else None
  }

  datatype OrderColumn = OrderColumn(column: string, direction: string)

  /** The `order` the interpreters return: sort columns and the table they qualify. */
  datatype Order = Order(columns: seq<OrderColumn>, table: string)

  /** What `interpretForKeysetPaging(node, dialect)` returns. */
  datatype KeysetPaging = KeysetPaging(limit: string, order: Order, whereCondition: Cond)

  /** What `interpretForOffsetPaging(node, dialect)` returns. */
  datatype OffsetPaging = OffsetPaging(limit: string, offset: nat, order: Order)

  /** The identifier quoting a dialect hands to `orderingsToString` or as option `q`. */
  datatype Quoting = DoubleQuotes | Backticks

  /** `extraJoin`: the child table joined inside a many-to-many paginated subselect. */
  datatype ExtraJoin = ExtraJoin(name: string, alias: string, condition: string)

  /** The options object of the paging select renderers; absent keys are `None`. */
  datatype SelectOptions = SelectOptions(
    joinCondition: Option<string>,
    joinType: Option<string>,
    extraJoin: Option<ExtraJoin>,
    q: Option<Quoting>
  )

  const NoOptions := SelectOptions(None, None, None, None)

  /** The helpers imported from `../shared`, left uninterpreted. */
  datatype Shared = Shared(
    keysetPagingSelect: (string, seq<Cond>, Order, string, string, SelectOptions) -> string,
    offsetPagingSelect: (string, seq<Cond>, Order, string, nat, string, SelectOptions) -> string,
    orderingsToString: (seq<OrderColumn>, Quoting, string) -> string,
    castExpression: (string, Option<string>) -> string   // generateCastExpressionFromValueType
  )

  /** `batchScope[0]`, which is `undefined` for an empty batch. */
  function FirstValue(batchScope: seq<string>): (r: Option<string>)
    ensures r.Some? <==> |batchScope| > 0
  {
    if |batchScope| > 0 then Some(batchScope[0]) else None
  }

  /**
   * One call of one of the five handlers of the dialect contract, with its
   * arguments. `keyset` and `offset` are what the shared interpreters return
   * for the node; each handler reads at most one of them.
   */
  datatype HandlerCall =
    | PaginationAtRoot(node: Node, keyset: KeysetPaging, offset: OffsetPaging)
    | JoinedOneToMany(parentAlias: string, node: Node, joinCondition: string,
                      keyset: KeysetPaging, offset: OffsetPaging)
    | JoinedManyToMany(parentAlias: string, node: Node, joinCondition1: string, joinCondition2: string,
                       keyset: KeysetPaging, offset: OffsetPaging)
    | BatchedOneToMany(node: Node, batchScope: seq<string>,
                       keyset: KeysetPaging, offset: OffsetPaging)
    | BatchedManyToMany(node: Node, batchScope: seq<string>, joinCondition: string,
                        keyset: KeysetPaging, offset: OffsetPaging)
  {
    /** The properties a handler dereferences without a guard. */
    predicate WellFormed() {
      match this
      case PaginationAtRoot(_, _, _) => true
      case JoinedOneToMany(_, _, _, _, _) => true
      case JoinedManyToMany(_, node, _, _, _, _) => node.junction.Some?
      case BatchedOneToMany(node, _, _, _) => node.sqlBatch.Some?
      case BatchedManyToMany(node, _, _, _, _) =>
        node.junction.Some? && node.junction.value.sqlBatch.Some?
    }

    predicate Joined() {
      JoinedOneToMany? || JoinedManyToMany?
    }
  }

  /** The caller-owned `tables` list: handlers only ever push onto it. */
  class Tables {
    var items: seq<string>

    constructor ()
      ensures items == []
    {
      items := [];
    }

    /** `tables.push(fragment)`. */
    method Push(fragment: string)
      modifies this
      ensures items == old(items) + [fragment]
    {
      items := items + [fragment];
    }
  }
}
