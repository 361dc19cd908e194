/** Callback runners shared by the newer call objects (include/ggrpc/impl/util.h).

    A user callback runs with the object's lock released. While it runs the
    object's `nesting` counter is raised by one, so that a SafeDeleter that
    fires inside the callback (for example because the callback dropped the
    last handle) does not delete the object under the caller's feet. */
module CallbackUtil {

  /** Identity of a server call context held by a `shared_ptr`. */
  type ContextId = nat

  /** A `shared_ptr` to a server context: empty, or holding one context. */
  datatype ContextRef = NoContext | Holding(ctx: ContextId)

  /** RunCallbackClient: an empty callback is skipped; otherwise it runs once
      with `nesting` raised by one, and whatever it throws is caught and
      logged. Returns the counter after the call and whether it ran. */
  method RunCallbackClient(nesting: int, hasCallback: bool) returns (nestingAfter: int, invoked: bool)
    ensures nestingAfter == nesting
    ensures invoked <==> hasCallback
  {
    nestingAfter, invoked := nesting, false;
    if hasCallback {
      nestingAfter := nestingAfter + 1;
      // the lock is released and the callback runs; an exception it throws
      // is caught and logged, and control continues here either way
      invoked := true;
      nestingAfter := nestingAfter - 1;
    }
  }

  /** RunCallbackServer: only the outermost call (nesting == 0) publishes the
      call's context in `tmpContext` for the duration of the callback; when the
      outermost call returns, the published reference is moved out and
      dropped (with `nesting` raised again while it is dropped).

      Returns the counter and the `shared_ptr` after the call, the value the
      callback saw in `tmpContext`, and the context whose reference was dropped
      on the way out, if any. */
  method RunCallbackServer(nesting: int, tmpContext: ContextRef, context: ContextId)
    returns (nestingAfter: int, tmpAfter: ContextRef, seen: ContextRef, dropped: ContextRef)
    ensures nestingAfter == nesting
    ensures nesting == 0 ==> seen == Holding(context)
    ensures nesting != 0 ==> seen == tmpContext
    ensures nesting == 0 ==> tmpAfter == NoContext && dropped == Holding(context)
    ensures nesting != 0 ==> tmpAfter == tmpContext && dropped == NoContext
  {
    var n := nesting;
    var tmp := tmpContext;
    if n == 0 {
      tmp := Holding(context);
    }
    n := n + 1;
    // the lock is released and the member callback runs; an exception it
    // throws is caught and logged, and control continues here either way
    seen := tmp;
    n := n - 1;
    dropped := NoContext;
    if n == 0 {
      var ctx := tmp;
      tmp := NoContext;
      n := n + 1;
      // ctx.reset(): the last reference may run the context's destructor
      dropped := ctx;
      n := n - 1;
    }
    nestingAfter, tmpAfter := n, tmp;
  }
}
