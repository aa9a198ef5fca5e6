/**
 * The members of the dialect contract (`DialectModule`) and, for a dialect
 * class, which code answers each of them. A class is its prototype chain; a
 * subclass or a mixin application adds a layer that shadows the members it
 * defines and inherits the rest.
 */
module Classes {
  import opened Wrappers

  datatype Member =
    | Name
    | Quote
    | CompositeKey
    | UnlimitedLimit
    | HandlePaginationAtRoot
    | HandleJoinedOneToManyPaginated
    | HandleJoinedManyToManyPaginated
    | HandleBatchedOneToManyPaginated
    | HandleBatchedManyToManyPaginated

  /** Whose code a member runs: one of the two mixins, or a dialect file's own class body. */
  datatype Impl =
    | NotSupportedStub
    | MaxIntLiteral
    | PgCode
    | OracleCode
    | MariaDBCode
    | MySQL8Code
    | MySQLCode
    | SQLite3Code

  /**
   * A class as the prototype chain it creates: each layer holds the members
   * one class body (or one mixin's anonymous class) defines, and the chain
   * ends at `Object.prototype`, which defines none of the contract.
   */
  datatype Proto = Object | Layer(own: map<Member, Impl>, parent: Proto)

  /** The members reachable along the chain. */
  function Members(p: Proto): set<Member> {
    match p
    case Object => {}
    case Layer(own, parent) => own.Keys + Members(parent)
  }

  /** Property lookup: the nearest layer that defines `m` answers it. */
  function Lookup(p: Proto, m: Member): (r: Option<Impl>)
    ensures r.Some? <==> m in Members(p)
  {
    match p
    case Object => None
    case Layer(own, parent) => if m in own then Some(own[m]) else Lookup(parent, m)
  }

  /** The five pagination handlers of the contract. */
  const Handlers: set<Member> := {
    HandlePaginationAtRoot, HandleJoinedOneToManyPaginated, HandleJoinedManyToManyPaginated,
    HandleBatchedOneToManyPaginated, HandleBatchedManyToManyPaginated
  }

  /** The members every dialect must have; `unlimitedLimit` is the one optional member. */
  const Required: set<Member> := {Name, Quote, CompositeKey} + Handlers

  /** `function () { }`, the empty base class the mixins are applied to. */
  const EmptyBase: Proto := Layer(map[], Object)

  /**
   * `class extends Super { own members }`: a member the class body defines
   * shadows the superclass's; every other member is the superclass's.
   */
  function Extend(super: Proto, own: map<Member, Impl>): Proto {
    Layer(own, super)
  }

  /** The subclass has the superclass's members and its own; its own shadow the inherited ones. */
  lemma ExtendShadows(super: Proto, own: map<Member, Impl>, m: Member)
    ensures Members(Extend(super, own)) == Members(super) + own.Keys
    ensures Lookup(Extend(super, own), m) == if m in own then Some(own[m]) else Lookup(super, m)
  {
  }
}
