# join-monster SQL dialects, modelled in Dafny

join-monster turns a GraphQL selection into one SQL query. The dialect
modules are the part that knows each database. A dialect is an object that
answers the members of the `DialectModule` contract:

- `name`, `quote(str)` and `compositeKey(parent, keys)`;
- five pagination handlers: root, joined one-to-many, joined many-to-many,
  batched one-to-many and batched many-to-many;
- optionally `unlimitedLimit()`.

Each handler appends SQL fragments to the caller's `tables` list. Six
dialects are modelled:

| dialect | built as |
|---|---|
| Postgres (`pg`) | a class of its own |
| Oracle | extends Postgres through the max-int mixin |
| MariaDB | an empty base, the not-supported mixin, then the max-int mixin |
| MySQL 8 | extends MariaDB |
| MySQL | an empty base with the not-supported mixin |
| SQLite3 | an empty base with the not-supported mixin |

The two mixins are modelled as well:

- `PaginationNotSupported` overrides all five handlers with stubs that throw;
- `UnlimitedLimitIsMaxint` adds `unlimitedLimit()`, the decimal text of
  2^64 - 1.

How the model is built:

- **Classes.** A class is modelled as its prototype chain (`Classes.Proto`).
  Each subclass or mixin application adds a layer of own members. A member
  resolves to the nearest layer that defines it. So every capability fact is
  proved from the class declarations alone. Examples: Oracle's `quote` is
  Postgres's; MySQL 8 throws on joined pagination; only three dialects have
  `unlimitedLimit`.
- **Handlers.** Each handler has two parts:
  - a pure function (`…Fragments`) that gives the fragments it appends;
  - an imperative method that builds the condition list step by step and
    pushes onto a `Plan.Tables` object, proved to append exactly those
    fragments.
- **Dispatch.** `Dialects.Handle` resolves a handler call through the class
  chain and runs it. It proves that every call either throws the fixed error
  with `tables` untouched, or appends what the resolved code appends.
- **Text.** SQL is built as text as the template literals write it,
  including line breaks and indentation. The one exception is a number
  interpolated into the text (an Oracle or MariaDB offset): the model writes
  it as exact decimal digits (see "Left out").
- **Helpers outside the dialects.** `keysetPagingSelect`,
  `offsetPagingSelect`, `orderingsToString` and
  `generateCastExpressionFromValueType` come from a module that is not part
  of this model. They are uninterpreted function values (`Plan.Shared`), so
  every contract shows the exact arguments each one is called with.

## Model

| member | source | states |
|---|---|---|
| `Classes.ExtendShadows` | src/stringifiers/dialects/mysql8.js:3-8 | a subclass has its superclass's members plus its own; a member it defines shadows the inherited one, and every other member resolves exactly as in the superclass |
| `PaginationNotSupported.ThrowErr` | src/stringifiers/dialects/mixins/pagination-not-supported.js:1-3 | the error thrown carries the fixed message "This type of pagination not supported on this dialect" |
| `PaginationNotSupported.Stub` | src/stringifiers/dialects/mixins/pagination-not-supported.js:7-19 | whatever call reaches a stub, it fails with that error and appends nothing |
| `PaginationNotSupported.StubsShadowHandlers` | src/stringifiers/dialects/mixins/pagination-not-supported.js:5-20 | applying the mixin makes exactly the five handlers stubs; every other member of the superclass resolves as before, and the class then has all five handlers |
| `UnlimitedLimitIsMaxint.UnlimitedLimit` | src/stringifiers/dialects/mixins/unlimitedLimit-is-maxint.js:3-5 | the limit literal is twenty decimal digits and nothing else |
| `UnlimitedLimitIsMaxint.MaxUint64Text` | src/stringifiers/dialects/mixins/unlimitedLimit-is-maxint.js:4 | the literal is the canonical decimal text (no leading zero) of 2^64 - 1 |
| `UnlimitedLimitIsMaxint.UnlimitedLimitDenotesMaxUint64` | src/stringifiers/dialects/mixins/unlimitedLimit-is-maxint.js:4 | read as a decimal number, the literal is 2^64 - 1 |
| `UnlimitedLimitIsMaxint.AddsOnlyUnlimitedLimit` | src/stringifiers/dialects/mixins/unlimitedLimit-is-maxint.js:1-6 | applying the mixin adds `unlimitedLimit`, answered by the max-int literal, and changes how no other member resolves |
| `Text.Compact` | src/stringifiers/dialects/oracle.js:23 | lodash `filter` keeps a string exactly when it is non-empty and occurs as a condition; the result is never longer and holds no empty string; a single condition survives exactly when it is truthy |
| `Text.WhereClause` | src/stringifiers/dialects/oracle.js:23 | with no truthy condition the result is the fallback; otherwise it is the truthy conditions, in order, joined by " AND " |
| `Text.WhereClauseWithLast` | src/stringifiers/dialects/mariadb.js:122-126 | adding one non-empty condition at the end means the fallback is never used: the result is that condition alone, or the truthy shared conditions, " AND ", then that condition |
| `Text.QualifiedKeys` | src/stringifiers/dialects/mariadb.js:52 | one entry per key, in key order, each the quoted parent, ".", and the quoted key |
| `Text.Join` | src/stringifiers/dialects/mariadb.js:18 | joining no part gives "", one part gives that part, and the length is the parts' total length plus one separator between each pair of neighbours |
| `Text.DecimalRoundTrip` | src/stringifiers/dialects/oracle.js:72 | the decimal text an offset is interpolated as reads back as the same number |
| `Plan.WhereConds` | src/stringifiers/dialects/pg.js:300-304 | a missing `where` hook adds no condition; a present one adds exactly one condition, its result for the quoted alias |
| `Plan.OneToManyMode` | src/stringifiers/dialects/pg.js:310-327 | keyset paging exactly when the node has a sort key; offset paging exactly when it has an order-by and no sort key; otherwise no paging |
| `Plan.ManyToManyMode` | src/stringifiers/dialects/pg.js:132-149 | keyset paging exactly when the node or its junction has a sort key; offset paging exactly when neither has one and either has an order-by |
| `Plan.ManyToManyWhereConds` | src/stringifiers/dialects/pg.js:99-113 | the junction's `where` result, called with the junction alias, comes first; the node's, called with the node alias, comes last |
| `Plan.ExtraJoinFor` | src/stringifiers/dialects/pg.js:125-131 | the child table is joined inside the subselect exactly when the node has a `where` hook or an order-by, under the node's name and alias and the given condition |
| `Plan.FirstValue` | src/stringifiers/dialects/pg.js:92-95 | `batchScope[0]` is defined exactly when the batch is not empty |
| `Plan.Tables.Push` | src/stringifiers/dialects/pg.js:118 | `tables.push` appends one fragment at the end and keeps the earlier ones |
| `Pg.Quote` | src/stringifiers/dialects/pg.js:16-18 | the identifier, unchanged, between two double quotes |
| `Pg.CompositeKey` | src/stringifiers/dialects/pg.js:20-23 | with at least one key, the key opens `NULLIF(CONCAT(` with the first qualified key column and closes with the last one and `), '')`; with none it is `NULLIF(CONCAT(), '')` |
| `Pg.CompositeKeyKeyOrder` | src/stringifiers/dialects/pg.js:20-23 | one key gives `NULLIF(CONCAT("p"."k"), '')`; each further key is added to the CONCAT argument list after ", ", in key order |
| `Pg.Parenthesized` | src/stringifiers/dialects/pg.js:305-307 | one entry per batch value, in order, each value in parentheses |
| `Pg.ValuesList` | src/stringifiers/dialects/pg.js:305-307 | the VALUES list is empty exactly for an empty batch; otherwise it opens with the first value in parentheses and closes with the last |
| `Pg.ValuesListOnePerValue` | src/stringifiers/dialects/pg.js:305-307 | the VALUES list of an empty batch is empty, of one value is `(v)`, and each further value adds `,(v)` at the end |
| `Pg.TempTable` | src/stringifiers/dialects/pg.js:305-307 | the VALUES table opens with the first batch value in parentheses when there is one, and always closes with `) temp("parentKey")` |
| `Pg.RootFragments` | src/stringifiers/dialects/pg.js:243-284 | the root handler appends one paging select when the node is paged and nothing otherwise |
| `Pg.PagedSelect` | src/stringifiers/dialects/pg.js:310-342 | one paging select for keyset or offset mode, none when unpaged |
| `Pg.JoinedOneToManyFragments` | src/stringifiers/dialects/pg.js:25-83 | the joined one-to-many handler appends one subselect when the node is paged and nothing otherwise |
| `Pg.JoinedManyToManyFragments` | src/stringifiers/dialects/pg.js:166-241 | the joined many-to-many handler appends one subselect when the node or its junction is paged and nothing otherwise |
| `Pg.BatchedOneToManyFragments` | src/stringifiers/dialects/pg.js:286-343 | the VALUES table over the parent key always comes first; the paging select follows only when the node is paged |
| `Pg.BatchedManyToManyFragments` | src/stringifiers/dialects/pg.js:84-164 | the VALUES table comes first; the paging select on the junction comes second when paged; the LEFT JOIN to the child table always comes last |
| `Pg.ChildJoin` | src/stringifiers/dialects/pg.js:163 | the closing join is a `LEFT JOIN` of the node's table that ends with the quoted alias and ` ON ` and the given join condition |
| `Pg.RootPagedSelect` | src/stringifiers/dialects/pg.js:243-284 | at the root no join options are passed; a sort key renders a keyset select whose seek condition comes before the `where` result, otherwise an order-by renders an offset select over the `where` result alone |
| `Pg.JoinedOneToManyPagedSelect` | src/stringifiers/dialects/pg.js:25-83 | the child table is paged under a LEFT lateral join on the given condition; the `sqlJoin` result comes first, then the `where` result, then, in keyset mode only, the seek condition |
| `Pg.JoinedManyToManyPagedSelect` | src/stringifiers/dialects/pg.js:166-241 | the junction table is paged under a LEFT lateral join on the first condition; the junction's `sqlJoins[0]` result comes first, then the junction's and the node's `where` results; the child table is joined inside on the second condition when the node has a `where` or an order-by; a sort key on either side renders keyset |
| `Pg.BatchedOneToManyPagedSelect` | src/stringifiers/dialects/pg.js:293-342 | the batch-key equality is both the first paging condition and the lateral join condition, followed by the `where` result and then the seek condition; a sort key renders a keyset select and an order-by an offset select |
| `Pg.BatchedManyToManyPagedSelect` | src/stringifiers/dialects/pg.js:92-162 | on the junction table, the batch-key equality over the junction alias is the first condition and the LEFT join condition; the junction's then the node's `where` results follow; a sort key on either side renders keyset, otherwise offset |
| `Pg.HandlePaginationAtRoot` | src/stringifiers/dialects/pg.js:243-284 | appends exactly the root fragments to `tables` |
| `Pg.HandleJoinedOneToManyPaginated` | src/stringifiers/dialects/pg.js:25-83 | appends exactly the joined one-to-many fragments |
| `Pg.HandleJoinedManyToManyPaginated` | src/stringifiers/dialects/pg.js:166-241 | appends exactly the joined many-to-many fragments |
| `Pg.HandleBatchedOneToManyPaginated` | src/stringifiers/dialects/pg.js:286-343 | appends exactly the batched one-to-many fragments |
| `Pg.HandleBatchedManyToManyPaginated` | src/stringifiers/dialects/pg.js:84-164 | appends exactly the batched many-to-many fragments |
| `Pg.PushPagedSelect` | src/stringifiers/dialects/pg.js:132-162 | pushes the paging select the mode calls for, or nothing |
| `Oracle.RecursiveConcat` | src/stringifiers/dialects/oracle.js:85-90 | defined exactly when there is at least one key; one key is returned unchanged |
| `Oracle.RecursiveConcatClosedForm` | src/stringifiers/dialects/oracle.js:85-90 | n keys give n - 1 CONCATs, all opened before the first key; each later key closes one, in order |
| `Oracle.RecursiveConcatLeftNested` | src/stringifiers/dialects/oracle.js:85-90 | one more key wraps the whole previous expression in one more binary CONCAT |
| `Oracle.CompositeKeyNestsConcats` | src/stringifiers/dialects/oracle.js:92-95 | the key of n >= 1 columns is NULLIF over n - 1 nested CONCATs of the quoted `"parent"."key"` terms, in key order |
| `Oracle.CompositeKey` | src/stringifiers/dialects/oracle.js:92-95 | the key is always NULLIF-guarded; a single key column is guarded as it is, without CONCAT; with no key the guard wraps `undefined` |
| `Oracle.CompositeKeyOfNoKeys` | src/stringifiers/dialects/oracle.js:85-95 | with no key, `recursiveConcat` yields `undefined`, so the key is `NULLIF(undefined, '')` |
| `Oracle.CompositeKeyAgreesWithPgOnTwoKeys` | src/stringifiers/dialects/oracle.js:85-95 | on exactly two keys Oracle's composite key is the same text as Postgres's |
| `Oracle.PagingLines` | src/stringifiers/dialects/oracle.js:14-83 | with a truthy join condition the select is an APPLY of 8 elements joined by line breaks, otherwise a `FROM (` subquery of 7 (the extra-join element carries a line break of its own); the WHERE element holds the filtered conditions or `1 = 1`; the row limit is the second-last element and the closing alias the last |
| `Oracle.KeysetPagingSelect` | src/stringifiers/dialects/oracle.js:14-47 | the keyset select opens with the APPLY when the join condition is truthy and `FROM (` otherwise, and ends with `FETCH FIRST limit ROWS ONLY` and the closing alias line |
| `Oracle.OffsetPagingSelect` | src/stringifiers/dialects/oracle.js:49-83 | the offset select opens like the keyset select and ends with `OFFSET n ROWS FETCH NEXT limit ROWS ONLY` and the closing alias line |
| `Oracle.PagingLinesDifferOnlyInSelectListAndRowLimit` | src/stringifiers/dialects/oracle.js:14-83 | two paging selects over the same table, conditions, order, alias and options differ at most in the select-list line and the row-limit line |
| `Oracle.OffsetDiffersFromKeysetInTwoLines` | src/stringifiers/dialects/oracle.js:14-83 | the offset select is the keyset select with the `$total` column added to the select list and `OFFSET … FETCH NEXT` in place of `FETCH FIRST`; every other line is identical |
| `Oracle.JoinConditionTextIsNotEmbedded` | src/stringifiers/dialects/oracle.js:22-38 | any two non-empty join conditions render the same keyset and offset selects: only their truthiness matters |
| `Oracle.DualRows` | src/stringifiers/dialects/oracle.js:407-415 | one `SELECT v AS "value" FROM DUAL` row per batch value, in order |
| `Oracle.ArrToTableUnion` | src/stringifiers/dialects/oracle.js:407-415 | the union is empty exactly for an empty batch; otherwise it opens with the first value's DUAL row and closes with the last value's |
| `Oracle.ArrToTableUnionOnePerValue` | src/stringifiers/dialects/oracle.js:407-415 | an empty batch gives "", one value gives its DUAL row, and each further value adds " UNION " and its row at the end |
| `Oracle.RootFragments` | src/stringifiers/dialects/oracle.js:97-138 | the root handler appends one select when the node is paged and nothing otherwise |
| `Oracle.PagedSelect` | src/stringifiers/dialects/oracle.js:296-328 | one Oracle paging select for keyset or offset mode, none when unpaged |
| `Oracle.JoinedOneToManyFragments` | src/stringifiers/dialects/oracle.js:140-200 | one subselect when the node is paged, nothing otherwise |
| `Oracle.JoinedManyToManyFragments` | src/stringifiers/dialects/oracle.js:202-277 | one subselect when the node or its junction is paged, nothing otherwise |
| `Oracle.BatchedOneToManyFragments` | src/stringifiers/dialects/oracle.js:279-329 | the DUAL union table `"temp"` always comes first; the paging select follows only when paged |
| `Oracle.BatchedManyToManyFragments` | src/stringifiers/dialects/oracle.js:331-404 | the DUAL union comes first, the paging select second when paged, and the join to the child table always last |
| `Oracle.PagedSelectWrapper` | src/stringifiers/dialects/oracle.js:24-46 | a paging select opens with `OUTER APPLY (` or `CROSS APPLY (` when the join condition is truthy, with `FROM (` otherwise, and always closes with `) "alias"` |
| `Oracle.JoinedHandlersApplyOuter` | src/stringifiers/dialects/oracle.js:140-277 | the joined handlers' subselects open with `OUTER APPLY (` for a non-empty join condition and with `FROM (` for an empty one |
| `Oracle.BatchedOneToManyCrossApplies` | src/stringifiers/dialects/oracle.js:294-328 | the batched one-to-many subselect passes no join type and so opens with `CROSS APPLY (` |
| `Oracle.BatchedManyToManyOuterApplies` | src/stringifiers/dialects/oracle.js:358-401 | the batched many-to-many subselect passes `'LEFT'` and so opens with `OUTER APPLY (` |
| `Oracle.RootAndJoinedHandlersReusePostgresStructure` | src/stringifiers/dialects/oracle.js:97-277 | the root and joined handlers append exactly what Postgres's would if the shared renderers were Oracle's own |
| `Oracle.HandlePaginationAtRoot` | src/stringifiers/dialects/oracle.js:97-138 | appends exactly the root fragments |
| `Oracle.HandleJoinedOneToManyPaginated` | src/stringifiers/dialects/oracle.js:140-200 | appends exactly the joined one-to-many fragments |
| `Oracle.HandleJoinedManyToManyPaginated` | src/stringifiers/dialects/oracle.js:202-277 | appends exactly the joined many-to-many fragments |
| `Oracle.HandleBatchedOneToManyPaginated` | src/stringifiers/dialects/oracle.js:279-329 | appends exactly the batched one-to-many fragments |
| `Oracle.HandleBatchedManyToManyPaginated` | src/stringifiers/dialects/oracle.js:331-404 | appends exactly the batched many-to-many fragments |
| `Oracle.PushPagedSelect` | src/stringifiers/dialects/oracle.js:372-402 | pushes the Oracle paging select the mode calls for, or nothing |
| `MariaDB.Quote` | src/stringifiers/dialects/mariadb.js:47-49 | the identifier, unchanged, between two backticks |
| `MariaDB.CompositeKey` | src/stringifiers/dialects/mariadb.js:51-54 | with at least one key, the key opens `CONCAT(` with the first qualified key column and closes with the last and `)`, with no NULLIF guard; with none it is `CONCAT()` |
| `MariaDB.CompositeKeyKeyOrder` | src/stringifiers/dialects/mariadb.js:51-54 | one key gives ``CONCAT(`p`.`k`)``; each further key is appended to the argument list after ", ", in order; there is no NULLIF guard |
| `MariaDB.JoinUnions` | src/stringifiers/dialects/mariadb.js:16-20 | the union always closes as a derived table aliased with the quoted alias; the first sub-select opens it and the last one closes it |
| `MariaDB.JoinUnionsOnePerMember` | src/stringifiers/dialects/mariadb.js:16-20 | an empty union gives an empty derived table; each further member adds one UNION line before itself; the table is aliased with the quoted alias |
| `MariaDB.OffsetClause` | src/stringifiers/dialects/mariadb.js:43 | the OFFSET clause appears exactly when the offset is a non-zero number |
| `MariaDB.PaginatedLines` | src/stringifiers/dialects/mariadb.js:22-44 | a per-key sub-select always has six elements joined by line breaks: the FROM element names the table under the quoted alias, then the extra-join element (which carries a line break of its own when present), then the WHERE element with the given conditions; the last element ends with the OFFSET clause, if any, and `)` |
| `MariaDB.PaginatedSelect` | src/stringifiers/dialects/mariadb.js:22-44 | a sub-select opens with `(SELECT` and the quoted alias's columns, and ends with the OFFSET clause, if any, and `)` |
| `MariaDB.PaginatedSelectTotalAndOffset` | src/stringifiers/dialects/mariadb.js:22-44 | the `$total` column follows the select list exactly when `withTotal` is set; the sub-select ends `OFFSET n)` exactly for a non-zero offset and `LIMIT limit)` otherwise |
| `MariaDB.KeyEquality` | src/stringifiers/dialects/mariadb.js:124 | the batch-key equality is never empty, so lodash `filter` never drops it |
| `MariaDB.UnionMembers` | src/stringifiers/dialects/mariadb.js:121-135 | one sub-select per batch value |
| `MariaDB.UnionMemberForEachValue` | src/stringifiers/dialects/mariadb.js:121-135 | member i is the sub-select for batch value i; its WHERE is the truthy shared conditions joined by AND, then that value's key equality; the `'1'` fallback never applies |
| `MariaDB.UnionMembersSnoc` | src/stringifiers/dialects/mariadb.js:121-135 | adding a batch value adds exactly its own sub-select, at the end |
| `MariaDB.UnionMemberShape` | src/stringifiers/dialects/mariadb.js:127-153 | every union member carries `$total` exactly when `withTotal` is set, and ends `OFFSET n)` exactly for a non-zero offset, `LIMIT limit)` otherwise |
| `MariaDB.MemberWhere` | src/stringifiers/dialects/mariadb.js:122-126 | a member's WHERE is the truthy conditions joined by AND and then its key equality |
| `MariaDB.KeysetUnionMember` | src/stringifiers/dialects/mariadb.js:114-136 | a keyset member (offset `null`, no total) selects no `$total`, filters on the truthy shared conditions, then the seek condition, then its own value's key equality, and ends `LIMIT limit)` with no OFFSET |
| `MariaDB.OffsetUnionMember` | src/stringifiers/dialects/mariadb.js:137-155 | an offset member (the offset, `withTotal: true`) selects `$total`, filters on the truthy shared conditions, then its own value's key equality, and ends with the OFFSET clause |
| `MariaDB.RootFragments` | src/stringifiers/dialects/mariadb.js:56-99 | keyset: one select whose conditions are the seek condition, then the `where` result; offset: one select over the `where` result with the offset; hooks see the backtick-quoted alias; nothing when unpaged |
| `MariaDB.BatchedUnion` | src/stringifiers/dialects/mariadb.js:114-155 | one union for keyset or offset mode, none when unpaged; the union is always a derived table aliased with the quoted alias |
| `MariaDB.BatchedOneToManyFragments` | src/stringifiers/dialects/mariadb.js:101-157 | one union over the node's table when paged, nothing otherwise |
| `MariaDB.BatchedOneToManyUnion` | src/stringifiers/dialects/mariadb.js:114-155 | a paged batched one-to-many handler pushes one union over the node's table with one member per batch value: keyset over the `where` result then the seek condition, offset `null`, no total; offset over the `where` result with the offset and `$total` |
| `MariaDB.BatchedManyToManyFragments` | src/stringifiers/dialects/mariadb.js:159-245 | one union over the junction table when paged, then always the LEFT JOIN to the child table last |
| `MariaDB.BatchedManyToManyUnion` | src/stringifiers/dialects/mariadb.js:191-245 | a paged batched many-to-many handler pushes one union over the junction table with one member per batch value (keyset: seek condition after the `where` results, offset `null`, no total; offset: the offset and `$total`), then the child join |
| `MariaDB.HandlePaginationAtRoot` | src/stringifiers/dialects/mariadb.js:56-99 | appends exactly the root fragments |
| `MariaDB.HandleBatchedOneToManyPaginated` | src/stringifiers/dialects/mariadb.js:101-157 | appends exactly the batched one-to-many fragments |
| `MariaDB.HandleBatchedManyToManyPaginated` | src/stringifiers/dialects/mariadb.js:159-245 | appends exactly the batched many-to-many fragments |
| `MariaDB.PushBatchedUnion` | src/stringifiers/dialects/mariadb.js:191-241 | pushes the union of per-key sub-selects the mode calls for, or nothing |
| `MySQL.Quote` | src/stringifiers/dialects/mysql.js:10-12 | the identifier, unchanged, between two backticks |
| `MySQL.CompositeKey` | src/stringifiers/dialects/mysql.js:14-17 | with at least one key, the key opens `CONCAT(` with the first qualified key column and closes with the last and `)`; with none it is `CONCAT()` |
| `MySQL.AgreesWithMariaDB` | src/stringifiers/dialects/mysql.js:10-17 | MySQL writes its own quoting and keys, but they equal MariaDB's on every input |
| `SQLite3.Quote` | src/stringifiers/dialects/sqlite3.js:8-10 | the identifier, unchanged, between two double quotes |
| `SQLite3.CompositeKey` | src/stringifiers/dialects/sqlite3.js:12-15 | the key is empty text exactly when there is no key column; otherwise it opens with the first qualified key column and closes with the last |
| `SQLite3.CompositeKeyTerms` | src/stringifiers/dialects/sqlite3.js:12-15 | one key gives `"p"."k"`; each further key is appended after the SQL string-concatenation operator, in order; a key over any column starts with the quoted parent, so there is no NULLIF guard |
| `Dialects.Resolve` | src/index.d.ts:137-147 | a member is answered exactly when it lies on the dialect's class chain |
| `Dialects.HandlerOf` | src/index.d.ts:141-145 | every handler call invokes one of the five handlers of the contract |
| `Dialects.NameOf` | src/index.d.ts:138 | a name is given only where the class chain has `name`, and it is one of the six module names |
| `Dialects.QuoteOf` | src/index.d.ts:139 | where the class chain has `quote`, the identifier comes back unchanged between one opening and one closing delimiter |
| `Dialects.CompositeKeyOf` | src/index.d.ts:140 | where the class chain has `compositeKey`, a key over at least one column is never empty text |
| `Dialects.UnlimitedLimitOf` | src/index.d.ts:146 | a limit is given only where the class chain has `unlimitedLimit`, and it is twenty decimal digits |
| `Dialects.ResolutionTable` | src/index.d.ts:137-147 | for every dialect and member, whose code answers it: its own class body, an ancestor's (Postgres `quote` for Oracle, MariaDB for MySQL 8), a stub, the max-int literal, or nothing |
| `Dialects.PgRow` | src/stringifiers/dialects/pg.js:9-13 | Postgres answers every member but `unlimitedLimit` with its own code |
| `Dialects.OracleRow` | src/stringifiers/dialects/oracle.js:10-12 | Oracle answers `unlimitedLimit` through the mixin and `quote` through Postgres; everything else is its own |
| `Dialects.MariaDBRow` | src/stringifiers/dialects/mariadb.js:12-14 | MariaDB answers `unlimitedLimit` through the mixin and the two joined handlers with stubs; everything else is its own |
| `Dialects.MySQL8Row` | src/stringifiers/dialects/mysql8.js:3-8 | MySQL 8 answers `name` itself and every other member exactly as MariaDB does |
| `Dialects.MySQLRow` | src/stringifiers/dialects/mysql.js:3-7 | MySQL answers all five handlers with stubs, has no `unlimitedLimit`, and answers the rest itself |
| `Dialects.SQLite3Row` | src/stringifiers/dialects/sqlite3.js:3-5 | SQLite3 answers all five handlers with stubs, has no `unlimitedLimit`, and answers the rest itself |
| `Dialects.Capabilities` | src/index.d.ts:137-147 | every dialect has all required members; `unlimitedLimit` exists exactly on Oracle, MariaDB and MySQL 8; a handler is a stub exactly on MySQL and SQLite3, and on the joined handlers of MariaDB and MySQL 8 |
| `Dialects.HandlersAnswerOrThrow` | src/index.d.ts:141-145 | every handler call on every dialect is answered; it fails exactly when a stub answers it, and then with the fixed message |
| `Dialects.Names` | src/index.d.ts:138 | the names are "pg", "oracle", "mariadb", "mysql8", "mysql" and "sqlite3" |
| `Dialects.QuoteStyles` | src/index.d.ts:139 | MariaDB, MySQL 8 and MySQL quote with backticks; Postgres, Oracle and SQLite3 with double quotes |
| `Dialects.OracleQuotesAsPostgres` | src/stringifiers/dialects/oracle.js:8-12 | Oracle defines no `quote`: it resolves to Postgres's code and gives Postgres's text |
| `Dialects.UnlimitedLimits` | src/index.d.ts:146 | `unlimitedLimit` is "18446744073709551615", which denotes 2^64 - 1, on Oracle, MariaDB and MySQL 8, and is absent elsewhere |
| `Dialects.MySQL8HandlesAsMariaDB` | src/stringifiers/dialects/mysql8.js:3-8 | every member but `name` resolves as on MariaDB, so every handler call gives what MariaDB's gives |
| `Dialects.MySQL8ValuesAsMariaDB` | src/stringifiers/dialects/mysql8.js:3-8 | MySQL 8's quoting, composite keys and limit literal equal MariaDB's |
| `Dialects.MySQLKeysAreMariaDBKeys` | src/stringifiers/dialects/mysql.js:14-17 | MySQL's composite key, reached through its class, equals MariaDB's on every input |
| `Dialects.Handle` | src/index.d.ts:141-145 | a handler call on any dialect either throws the resolved stub's error and leaves `tables` unchanged, or appends exactly what the resolved code appends |
| `Dialects.HandleWithPg` | src/stringifiers/dialects/pg.js:25-343 | running Postgres's handler for a call appends exactly Postgres's fragments for it |
| `Dialects.HandleWithOracle` | src/stringifiers/dialects/oracle.js:97-404 | running Oracle's handler for a call appends exactly Oracle's fragments for it |
| `Dialects.HandleWithMariaDB` | src/stringifiers/dialects/mariadb.js:56-245 | running MariaDB's own handler for a root or batched call appends exactly MariaDB's fragments for it |

## Left out

- Hooks are awaited in the source (`where`, `sqlJoin`, `junction.sqlJoins[0]`). Here they are total functions from the quoted alias to an optional string. Their other arguments (`node.args`, `context`, `node`) are not modelled. Hooks that fail or reject are not modelled either.
- `keysetPagingSelect`, `offsetPagingSelect`, `orderingsToString` and `generateCastExpressionFromValueType` live in `../shared`, which is not part of this model. They are uninterpreted, so properties of the text they render are not proved.
- `interpretForKeysetPaging` and `interpretForOffsetPaging` are not part of this model. Their results are inputs of each handler call, the same whichever dialect handles it, although the source passes the dialect (`this`) to them.
- `Dialects.MySQL8HandlesAsMariaDB`: holds on the assumption above, that MySQL 8 and MariaDB get the same results from the two paging interpreters for the same call.
- `Oracle.RootAndJoinedHandlersReusePostgresStructure`: holds on the same assumption, that Oracle and Postgres get the same results from the two paging interpreters.
- An interpreter that throws is not modelled. In the batched handlers of Postgres (pg.js:118, pg.js:308) and Oracle (oracle.js:294, oracle.js:358) the temp table is pushed before the interpreter runs, so a throw there would leave `tables` with the temp table appended and nothing after it.
- The handlers' `parent` argument is reduced to `parent.as`, which only the joined handlers use (as `parentAlias`, quoted and passed to `sqlJoin` or `junction.sqlJoins[0]`). `context` is only passed on to hooks and is not modelled; neither is `node.args`.
- Batch values are modelled as their text. Whether a JavaScript batch value is a number or a string is dropped, so `generateCastExpressionFromValueType` receives `batchScope[0]` as text only and the model cannot tell `[1]` from `["1"]`.
- `Text.NatToString`: an interpolated offset (oracle.js:72, mariadb.js:43) is written as exact decimal digits. JavaScript writes a Number of 10^21 or more in exponent form (`1e+21`) and is not exact above 2^53; the model does not capture either.
- Whether the generated SQL is valid for its database is not modelled; only the text is.
- JavaScript classes are modelled as prototype-chain values. `this.quote` inside a class body is modelled as the `quote` that resolves on that dialect (for Oracle, Postgres's).
- An empty key list gives Oracle's composite key the text `NULLIF(undefined, '')`. The model states this (`Oracle.CompositeKeyOfNoKeys`) rather than treating it as an error, since the callers never pass an empty list.
- Each handler first chooses keyset, offset or no paging from `sortKey`/`orderBy` (`Plan.OneToManyMode`, `Plan.ManyToManyMode`). It then pushes through one helper method (`Pg.PushPagedSelect`, `Oracle.PushPagedSelect`, `MariaDB.PushBatchedUnion`). The source repeats the push in both branches of its `if`/`else if`. The pushed fragments are the same.
- `MariaDB.UnionMembers` models `batchScope.map(...)` as a sequence comprehension, not as a loop.
- Empty batches: Postgres renders `VALUES ` with no row and Oracle an empty union. The model renders the same text and does not check it as SQL.
