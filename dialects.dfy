/**
 * The six dialect modules as the SQL assembler sees them: each dialect is its
 * class table, and a member is looked up in that table before the code that
 * defines it runs. What the assembler gets from `quote`, `compositeKey`,
 * `unlimitedLimit` and the five handlers is therefore decided by inheritance
 * and mixins alone.
 */
module Dialects {
  import opened Wrappers
  import opened Text
  import opened Classes
  import opened Plan
  import PaginationNotSupported
  import UnlimitedLimitIsMaxint
  import PgDialect = Pg
  import OracleDialect = Oracle
  import MariaDBDialect = MariaDB
  import MySQL8Dialect = MySQL8
  import MySQLDialect = MySQL
  import SQLite3Dialect = SQLite3

  datatype Dialect = Pg | Oracle | MariaDB | MySQL8 | MySQL | SQLite3

  /** The `Dialect` class each dialect module exports an instance of. */
  function ClassOf(d: Dialect): Proto {
    match d
    case Pg => PgDialect.Class
    case Oracle => OracleDialect.Class
    case MariaDB => MariaDBDialect.Class
    case MySQL8 => MySQL8Dialect.Class
    case MySQL => MySQLDialect.Class
    case SQLite3 => SQLite3Dialect.Class
  }

  /** `dialect[m]`: the code that answers `m`, if any. */
  function Resolve(d: Dialect, m: Member): (r: Option<Impl>)
    ensures r.Some? <==> m in Members(ClassOf(d))
  {
    Lookup(ClassOf(d), m)
  }

  /** `dialect.name`: one of the six module names, and only where the class table has the member. */
  function NameOf(d: Dialect): (r: Option<string>)
    ensures r.Some? ==> Member.Name in Members(ClassOf(d))
    ensures r.Some? ==> r.value in {"pg", "oracle", "mariadb", "mysql8", "mysql", "sqlite3"}
  {
    match Resolve(d, Member.Name)
    case Some(PgCode) => Some(PgDialect.Name)
    case Some(OracleCode) => Some(OracleDialect.Name)
    case Some(MariaDBCode) => Some(MariaDBDialect.Name)
    case Some(MySQL8Code) => Some(MySQL8Dialect.Name)
    case Some(MySQLCode) => Some(MySQLDialect.Name)
    case Some(SQLite3Code) => Some(SQLite3Dialect.Name)
    case _ => None
  }

  /**
   * `dialect.quote(s)`: where the class table has the member, the identifier
   * comes back unchanged between one opening and one closing delimiter.
   */
  function QuoteOf(d: Dialect, s: string): (r: Option<string>)
    ensures r.Some? ==> Member.Quote in Members(ClassOf(d))
    ensures r.Some? ==> |r.value| == |s| + 2 && r.value[1..|r.value| - 1] == s
  {
    match Resolve(d, Member.Quote)
    case Some(PgCode) => Some(PgDialect.Quote(s))
    case Some(MariaDBCode) => Some(MariaDBDialect.Quote(s))
    case Some(MySQLCode) => Some(MySQLDialect.Quote(s))
    case Some(SQLite3Code) => Some(SQLite3Dialect.Quote(s))
    case _ => None
  }

  /**
   * `dialect.compositeKey(parent, keys)`: where the class table has the member,
   * a key over at least one column is never empty text.
   */
  function CompositeKeyOf(d: Dialect, parent: string, keys: seq<string>): (r: Option<string>)
    ensures r.Some? ==> Member.CompositeKey in Members(ClassOf(d))
    ensures r.Some? && |keys| >= 1 ==> r.value != ""
  {
    match Resolve(d, Member.CompositeKey)
    case Some(PgCode) => Some(PgDialect.CompositeKey(parent, keys))
    case Some(OracleCode) => Some(OracleDialect.CompositeKey(parent, keys))
    case Some(MariaDBCode) => Some(MariaDBDialect.CompositeKey(parent, keys))
    case Some(MySQLCode) => Some(MySQLDialect.CompositeKey(parent, keys))
    case Some(SQLite3Code) => Some(SQLite3Dialect.CompositeKey(parent, keys))
    case _ => None
  }

  /**
   * `dialect.unlimitedLimit()`, `None` where the dialect has no such member;
   * where it has one, the limit is twenty decimal digits.
   */
  function UnlimitedLimitOf(d: Dialect): (r: Option<string>)
    ensures r.Some? ==> Member.UnlimitedLimit in Members(ClassOf(d))
    ensures r.Some? ==> AllDigits(r.value) && |r.value| == 20
  {
    match Resolve(d, Member.UnlimitedLimit)
    case Some(MaxIntLiteral) => Some(UnlimitedLimitIsMaxint.UnlimitedLimit())
    case _ => None
  }

  /** The contract member a handler call invokes. */
  function HandlerOf(call: HandlerCall): (m: Member)
    ensures m in Handlers
  {
    match call
    case PaginationAtRoot(_, _, _) => HandlePaginationAtRoot
    case JoinedOneToMany(_, _, _, _, _) => HandleJoinedOneToManyPaginated
    case JoinedManyToMany(_, _, _, _, _, _) => HandleJoinedManyToManyPaginated
    case BatchedOneToMany(_, _, _, _) => HandleBatchedOneToManyPaginated
    case BatchedManyToMany(_, _, _, _, _) => HandleBatchedManyToManyPaginated
  }

  /** What Postgres's handler for `call` appends. */
  function PgFragments(call: HandlerCall, sh: Shared): (r: seq<string>)
    requires call.WellFormed()
  {
    match call
    case PaginationAtRoot(node, ks, os) => PgDialect.RootFragments(node, ks, os, sh)
    case JoinedOneToMany(p, node, jc, ks, os) => PgDialect.JoinedOneToManyFragments(p, node, jc, ks, os, sh)
    case JoinedManyToMany(p, node, jc1, jc2, ks, os) =>
      PgDialect.JoinedManyToManyFragments(p, node, jc1, jc2, ks, os, sh)
    case BatchedOneToMany(node, scope, ks, os) => PgDialect.BatchedOneToManyFragments(node, scope, ks, os, sh)
    case BatchedManyToMany(node, scope, jc, ks, os) =>
      PgDialect.BatchedManyToManyFragments(node, scope, jc, ks, os, sh)
  }

  /** What Oracle's handler for `call` appends. */
  function OracleFragments(call: HandlerCall, sh: Shared): (r: seq<string>)
    requires call.WellFormed()
  {
    match call
    case PaginationAtRoot(node, ks, os) => OracleDialect.RootFragments(node, ks, os, sh)
    case JoinedOneToMany(p, node, jc, ks, os) => OracleDialect.JoinedOneToManyFragments(p, node, jc, ks, os, sh)
    case JoinedManyToMany(p, node, jc1, jc2, ks, os) =>
      OracleDialect.JoinedManyToManyFragments(p, node, jc1, jc2, ks, os, sh)
    case BatchedOneToMany(node, scope, ks, os) => OracleDialect.BatchedOneToManyFragments(node, scope, ks, os, sh)
    case BatchedManyToMany(node, scope, jc, ks, os) =>
      OracleDialect.BatchedManyToManyFragments(node, scope, jc, ks, os, sh)
  }

  /** What MariaDB's handler for `call` appends; its class body has no joined handlers. */
  function MariaDBFragments(call: HandlerCall, sh: Shared): (r: seq<string>)
    requires call.WellFormed() && !call.Joined()
  {
    match call
    case PaginationAtRoot(node, ks, os) => MariaDBDialect.RootFragments(node, ks, os, sh)
    case BatchedOneToMany(node, scope, ks, os) => MariaDBDialect.BatchedOneToManyFragments(node, scope, ks, os, sh)
    case BatchedManyToMany(node, scope, jc, ks, os) =>
      MariaDBDialect.BatchedManyToManyFragments(node, scope, jc, ks, os, sh)
  }

  /**
   * What the code `impl` does when `call`'s handler resolves to it: the stub
   * throws, a dialect's own handler appends its fragments. `None` when that
   * code defines no such handler.
   */
  function Run(impl: Impl, call: HandlerCall, sh: Shared): Option<Result<seq<string>, PaginationNotSupported.Error>>
    requires call.WellFormed()
  {
    match impl
    case NotSupportedStub => Some(PaginationNotSupported.Stub(call))
    case PgCode => Some(Success(PgFragments(call, sh)))
    case OracleCode => Some(Success(OracleFragments(call, sh)))
    case MariaDBCode => if call.Joined() then None else Some(Success(MariaDBFragments(call, sh)))
    case _ => None
  }

  /** What calling the handler on the dialect does: `None` would be a missing method. */
  function Appended(d: Dialect, call: HandlerCall, sh: Shared): Option<Result<seq<string>, PaginationNotSupported.Error>>
    requires call.WellFormed()
  {
    match Resolve(d, HandlerOf(call))
    case Some(impl) => Run(impl, call, sh)
    case None => None
  }

  // ---- the capability table ----------------------------------------------------

  /** Which dialect answers which member, as inheritance and the mixins decide it. */
  lemma ResolutionTable(d: Dialect, m: Member)
    ensures Resolve(d, m) ==
      match d
      case Pg => if m == Member.UnlimitedLimit then None else Some(PgCode)
      case Oracle =>
        if m == Member.UnlimitedLimit then Some(MaxIntLiteral)
        else if m == Member.Quote then Some(PgCode)
        else Some(OracleCode)
      case MariaDB =>
        if m == Member.UnlimitedLimit then Some(MaxIntLiteral)
        else if m in {HandleJoinedOneToManyPaginated, HandleJoinedManyToManyPaginated} then Some(NotSupportedStub)
        else Some(MariaDBCode)
      case MySQL8 =>
        if m == Member.UnlimitedLimit then Some(MaxIntLiteral)
        else if m in {HandleJoinedOneToManyPaginated, HandleJoinedManyToManyPaginated} then Some(NotSupportedStub)
        else if m == Member.Name then Some(MySQL8Code)
        else Some(MariaDBCode)
      case MySQL =>
        if m == Member.UnlimitedLimit then None else if m in Handlers then Some(NotSupportedStub) else Some(MySQLCode)
      case SQLite3 =>
        if m == Member.UnlimitedLimit then None else if m in Handlers then Some(NotSupportedStub) else Some(SQLite3Code)
  {
    match d
    case Pg => PgRow(m);
    case Oracle => OracleRow(m);
    case MariaDB => MariaDBRow(m);
    case MySQL8 => MariaDBRow(m); MySQL8Row(m);
    case MySQL => MySQLRow(m);
    case SQLite3 => SQLite3Row(m);
  }

  lemma PgRow(m: Member)
    ensures Resolve(Pg, m) == if m == Member.UnlimitedLimit then None else Some(PgCode)
  {
  }

  lemma OracleRow(m: Member)
    ensures Resolve(Oracle, m) ==
      if m == Member.UnlimitedLimit then Some(MaxIntLiteral)
      else if m == Member.Quote then Some(PgCode)
      else Some(OracleCode)
  {
  }

  lemma MariaDBRow(m: Member)
    ensures Resolve(MariaDB, m) ==
      if m == Member.UnlimitedLimit then Some(MaxIntLiteral)
      else if m in {HandleJoinedOneToManyPaginated, HandleJoinedManyToManyPaginated} then Some(NotSupportedStub)
      else Some(MariaDBCode)
  {
  }

  lemma MySQL8Row(m: Member)
    ensures Resolve(MySQL8, m) == if m == Member.Name then Some(MySQL8Code) else Resolve(MariaDB, m)
  {
  }

  lemma MySQLRow(m: Member)
    ensures Resolve(MySQL, m) ==
      if m == Member.UnlimitedLimit then None else if m in Handlers then Some(NotSupportedStub) else Some(MySQLCode)
  {
  }

  lemma SQLite3Row(m: Member)
    ensures Resolve(SQLite3, m) ==
      if m == Member.UnlimitedLimit then None else if m in Handlers then Some(NotSupportedStub) else Some(SQLite3Code)
  {
  }

  /**
   * Every dialect fills the whole contract, `unlimitedLimit` included exactly
   * where the max-int mixin is applied, and a handler throws exactly where the
   * not-supported stub answers it: every handler on MySQL and SQLite3, the two
   * joined handlers on MariaDB and MySQL8, none on Postgres and Oracle.
   */
  lemma Capabilities(d: Dialect, m: Member)
    ensures Required <= Members(ClassOf(d))
    ensures Member.UnlimitedLimit in Members(ClassOf(d)) <==> d in {Oracle, MariaDB, MySQL8}
    ensures m in Handlers ==>
      (Resolve(d, m) == Some(NotSupportedStub) <==>
       d in {MySQL, SQLite3} ||
       (d in {MariaDB, MySQL8} && m in {HandleJoinedOneToManyPaginated, HandleJoinedManyToManyPaginated}))
  {
    forall r | r in Required
      ensures r in Members(ClassOf(d))
    {
      ResolutionTable(d, r);
    }
    ResolutionTable(d, Member.UnlimitedLimit);
    ResolutionTable(d, m);
  }

  /**
   * Every handler call on every dialect is answered. It fails exactly when the
   * not-supported stub answers it, with the fixed message and nothing
   * appended.
   */
  lemma HandlersAnswerOrThrow(d: Dialect, call: HandlerCall, sh: Shared)
    requires call.WellFormed()
    ensures Appended(d, call, sh).Some?
    ensures Appended(d, call, sh).value.Failure? <==> Resolve(d, HandlerOf(call)) == Some(NotSupportedStub)
    ensures Appended(d, call, sh).value.Failure? ==>
      Appended(d, call, sh).value.error.message == PaginationNotSupported.Message
  {
    ResolutionTable(d, HandlerOf(call));
  }

  /** The name each dialect reports. */
  lemma Names(d: Dialect)
    ensures NameOf(d) == Some(match d
                              case Pg => "pg"
                              case Oracle => "oracle"
                              case MariaDB => "mariadb"
                              case MySQL8 => "mysql8"
                              case MySQL => "mysql"
                              case SQLite3 => "sqlite3")
  {
    match d
    case Pg => PgRow(Member.Name);
    case Oracle => OracleRow(Member.Name);
    case MariaDB => MariaDBRow(Member.Name);
    case MySQL8 => MySQL8Row(Member.Name);
    case MySQL => MySQLRow(Member.Name);
    case SQLite3 => SQLite3Row(Member.Name);
  }

  /** Postgres, Oracle (through inheritance) and SQLite3 quote with double quotes; the MySQL family with backticks. */
  lemma QuoteStyles(d: Dialect, s: string)
    ensures QuoteOf(d, s) == Some(if d in {MariaDB, MySQL8, MySQL} then "`" + s + "`" else "\"" + s + "\"")
  {
    match d
    case Pg => PgRow(Member.Quote);
    case Oracle => OracleRow(Member.Quote);
    case MariaDB => MariaDBRow(Member.Quote);
    case MySQL8 => MySQL8Row(Member.Quote); MariaDBRow(Member.Quote);
    case MySQL => MySQLRow(Member.Quote);
    case SQLite3 => SQLite3Row(Member.Quote);
  }

  /** Oracle does not define `quote`: it is Postgres's, inherited. */
  lemma OracleQuotesAsPostgres(s: string)
    ensures Resolve(Oracle, Member.Quote) == Resolve(Pg, Member.Quote)
    ensures QuoteOf(Oracle, s) == QuoteOf(Pg, s)
  {
    OracleRow(Member.Quote);
    PgRow(Member.Quote);
  }

  /** `unlimitedLimit` is the max-uint64 literal where defined, and defined only where the mixin is applied. */
  lemma UnlimitedLimits(d: Dialect)
    ensures UnlimitedLimitOf(d) ==
            if d in {Oracle, MariaDB, MySQL8} then Some("18446744073709551615") else None
    ensures UnlimitedLimitOf(d).Some? ==> DecimalValue(UnlimitedLimitOf(d).value) == UnlimitedLimitIsMaxint.MaxUint64
  {
    UnlimitedLimitIsMaxint.UnlimitedLimitDenotesMaxUint64();
    match d
    case Pg => PgRow(Member.UnlimitedLimit);
    case Oracle => OracleRow(Member.UnlimitedLimit);
    case MariaDB => MariaDBRow(Member.UnlimitedLimit);
    case MySQL8 => MySQL8Row(Member.UnlimitedLimit); MariaDBRow(Member.UnlimitedLimit);
    case MySQL => MySQLRow(Member.UnlimitedLimit);
    case SQLite3 => SQLite3Row(Member.UnlimitedLimit);
  }

  /**
   * MySQL 8 is MariaDB but for its name: every other member resolves to the
   * same code, so every handler call gives exactly what MariaDB's gives.
   */
  lemma MySQL8HandlesAsMariaDB(m: Member, call: HandlerCall, sh: Shared)
    requires call.WellFormed()
    ensures m != Member.Name ==> Resolve(MySQL8, m) == Resolve(MariaDB, m)
    ensures Appended(MySQL8, call, sh) == Appended(MariaDB, call, sh)
  {
    MySQL8Row(m);
    MySQL8Row(HandlerOf(call));
  }

  /** ... and quoting, keys and the limit literal are MariaDB's; only the name (see `Names`) is its own. */
  lemma MySQL8ValuesAsMariaDB(s: string, parent: string, keys: seq<string>)
    ensures QuoteOf(MySQL8, s) == QuoteOf(MariaDB, s)
    ensures CompositeKeyOf(MySQL8, parent, keys) == CompositeKeyOf(MariaDB, parent, keys)
    ensures UnlimitedLimitOf(MySQL8) == UnlimitedLimitOf(MariaDB)
  {
    MySQL8Row(Member.Quote);
    MySQL8Row(Member.CompositeKey);
    MySQL8Row(Member.UnlimitedLimit);
  }

  /** MySQL's keys are written out again in its own file, but they are MariaDB's keys. */
  lemma MySQLKeysAreMariaDBKeys(parent: string, keys: seq<string>)
    ensures CompositeKeyOf(MySQL, parent, keys) == CompositeKeyOf(MariaDB, parent, keys)
  {
    MySQLCompositeKeyOf(parent, keys);
    MariaDBCompositeKeyOf(parent, keys);
    MySQLDialect.AgreesWithMariaDB(parent, parent, keys);
  }

  lemma MySQLCompositeKeyOf(parent: string, keys: seq<string>)
    ensures CompositeKeyOf(MySQL, parent, keys) == Some(MySQLDialect.CompositeKey(parent, keys))
  {
    MySQLRow(Member.CompositeKey);
  }

  lemma MariaDBCompositeKeyOf(parent: string, keys: seq<string>)
    ensures CompositeKeyOf(MariaDB, parent, keys) == Some(MariaDBDialect.CompositeKey(parent, keys))
  {
    MariaDBRow(Member.CompositeKey);
  }

  // ---- running a handler ---------------------------------------------------------

  /**
   * `await dialect[handler](…)`: the call is dispatched to the code that
   * answers it, which either throws before touching `tables` or appends
   * exactly its fragments.
   */
  method Handle(d: Dialect, call: HandlerCall, sh: Shared, tables: Tables)
    returns (outcome: Result<(), PaginationNotSupported.Error>)
    requires call.WellFormed()
    modifies tables
    ensures Appended(d, call, sh).Some?
    ensures Appended(d, call, sh).value.Success? ==>
      outcome.Success? && tables.items == old(tables.items) + Appended(d, call, sh).value.value
    ensures Appended(d, call, sh).value.Failure? ==>
      outcome == Failure(Appended(d, call, sh).value.error) && tables.items == old(tables.items)
  {
    HandlersAnswerOrThrow(d, call, sh);
    ResolutionTable(d, HandlerOf(call));
    var impl := Resolve(d, HandlerOf(call)).value;
    if impl == NotSupportedStub {
      outcome := Failure(PaginationNotSupported.ThrowErr());
    } else if impl == PgCode {
      HandleWithPg(call, sh, tables);
      outcome := Success(());
    } else if impl == OracleCode {
      HandleWithOracle(call, sh, tables);
      outcome := Success(());
    } else {
      HandleWithMariaDB(call, sh, tables);
      outcome := Success(());
    }
  }

  /** Postgres's handler methods, by call. */
  method HandleWithPg(call: HandlerCall, sh: Shared, tables: Tables)
    requires call.WellFormed()
    modifies tables
    ensures tables.items == old(tables.items) + PgFragments(call, sh)
  {
    match call
    case PaginationAtRoot(node, ks, os) => PgDialect.HandlePaginationAtRoot(node, ks, os, sh, tables);
    case JoinedOneToMany(p, node, jc, ks, os) => PgDialect.HandleJoinedOneToManyPaginated(p, node, jc, ks, os, sh, tables);
    case JoinedManyToMany(p, node, jc1, jc2, ks, os) =>
      PgDialect.HandleJoinedManyToManyPaginated(p, node, jc1, jc2, ks, os, sh, tables);
    case BatchedOneToMany(node, scope, ks, os) => PgDialect.HandleBatchedOneToManyPaginated(node, scope, ks, os, sh, tables);
    case BatchedManyToMany(node, scope, jc, ks, os) =>
      PgDialect.HandleBatchedManyToManyPaginated(node, scope, jc, ks, os, sh, tables);
  }

  /** Oracle's handler methods, by call. */
  method HandleWithOracle(call: HandlerCall, sh: Shared, tables: Tables)
    requires call.WellFormed()
    modifies tables
    ensures tables.items == old(tables.items) + OracleFragments(call, sh)
  {
    match call
    case PaginationAtRoot(node, ks, os) => OracleDialect.HandlePaginationAtRoot(node, ks, os, sh, tables);
    case JoinedOneToMany(p, node, jc, ks, os) =>
      OracleDialect.HandleJoinedOneToManyPaginated(p, node, jc, ks, os, sh, tables);
    case JoinedManyToMany(p, node, jc1, jc2, ks, os) =>
      OracleDialect.HandleJoinedManyToManyPaginated(p, node, jc1, jc2, ks, os, sh, tables);
    case BatchedOneToMany(node, scope, ks, os) =>
      OracleDialect.HandleBatchedOneToManyPaginated(node, scope, ks, os, sh, tables);
    case BatchedManyToMany(node, scope, jc, ks, os) =>
      OracleDialect.HandleBatchedManyToManyPaginated(node, scope, jc, ks, os, sh, tables);
  }

  /** MariaDB's handler methods, by call. */
  method HandleWithMariaDB(call: HandlerCall, sh: Shared, tables: Tables)
    requires call.WellFormed() && !call.Joined()
    modifies tables
    ensures tables.items == old(tables.items) + MariaDBFragments(call, sh)
  {
    match call
    case PaginationAtRoot(node, ks, os) => MariaDBDialect.HandlePaginationAtRoot(node, ks, os, sh, tables);
    case BatchedOneToMany(node, scope, ks, os) =>
      MariaDBDialect.HandleBatchedOneToManyPaginated(node, scope, ks, os, sh, tables);
    case BatchedManyToMany(node, scope, jc, ks, os) =>
      MariaDBDialect.HandleBatchedManyToManyPaginated(node, scope, jc, ks, os, sh, tables);
  }
}
