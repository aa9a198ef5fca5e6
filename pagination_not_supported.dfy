/**
 * The mixin that gives a dialect the five pagination handlers as stubs that
 * throw, whatever they are called with.
 */
module PaginationNotSupported {
  import opened Wrappers
  import opened Classes
  import opened Plan

  const Message: string := "This type of pagination not supported on this dialect"

  /** What a failing handler raises. */
  datatype Error = UnsupportedPagination(message: string)

  /** `throwErr()`. */
  function ThrowErr(): (e: Error)
    ensures e.message == Message
  {
    UnsupportedPagination(Message)
  }

  /**
   * Any of the five stubs: it takes no parameters, so whatever call reaches it
   * throws the same error and contributes no fragment.
   */
  function Stub(call: HandlerCall): (r: Result<seq<string>, Error>)
    ensures r.Failure? && r.error == UnsupportedPagination(Message)
  {
    Failure(ThrowErr())
  }

  /** `PaginationNotSupported(superclass)`: a class over the superclass whose body is the five stubs. */
  function Apply(super: Proto): Proto {
    Extend(super, map[HandlePaginationAtRoot := NotSupportedStub, HandleJoinedOneToManyPaginated := NotSupportedStub,
           HandleJoinedManyToManyPaginated := NotSupportedStub, HandleBatchedOneToManyPaginated := NotSupportedStub,
           HandleBatchedManyToManyPaginated := NotSupportedStub])
  }

  /**
   * Exactly the five handlers become stubs; every other member of the
   * superclass passes through unchanged, and the class then has the whole
   * set of handlers.
   */
  lemma StubsShadowHandlers(super: Proto, m: Member)
    ensures Members(Apply(super)) == Members(super) + Handlers
    ensures Lookup(Apply(super), m) == if m in Handlers then Some(NotSupportedStub) else Lookup(super, m)
  {
  }
}
