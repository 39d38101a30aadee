/**
 * `composeMiddleware(...$middlewares)`: it returns a closure that captures the
 * middleware list by value and, on each call, reassigns its request once per
 * middleware in a `foreach` loop. The closure is modelled as an immutable
 * value holding the captured list; constructing it calls no middleware, and
 * later changes to the caller's own list cannot reach it.
 */
module Middleware {
  import opened Pipeline

  datatype ComposedMiddleware<!T> = ComposeMiddleware(middlewares: seq<T -> T>)
  {
    /**
     * Calling the closure: the loop leaves the request mapped by every
     * middleware in argument order, which is the `Pipe` fold of the list.
     */
    method Handle(request: T) returns (result: T)
      ensures result == Pipe(request, middlewares)
    {
      result := request;
      for i := 0 to |middlewares|
        invariant result == Pipe(request, middlewares[..i])
      {
        PipeSnoc(request, middlewares[..i], middlewares[i]);
        assert middlewares[..i + 1] == middlewares[..i] + [middlewares[i]];
        result := middlewares[i](result);
      }
      assert middlewares[..|middlewares|] == middlewares;
    }
  }

  /** With no middlewares the closure returns its request unchanged. */
  method HandleWithNone<T>(request: T) returns (result: T)
    ensures result == request
  {
    result := ComposeMiddleware([]).Handle(request);
  }

  /** A single-middleware composition behaves exactly like that middleware. */
  method HandleWithOne<T>(m: T -> T, request: T) returns (result: T)
    ensures result == m(request)
  {
    result := ComposeMiddleware([m]).Handle(request);
  }

  /**
   * Splitting the list does not matter: the composition of `ms + ns` gives the
   * same response as the composition of `ns` applied to that of `ms`.
   */
  method HandleInStages<T>(ms: seq<T -> T>, ns: seq<T -> T>, request: T) returns (whole: T, staged: T)
    ensures whole == staged
    ensures staged == Pipe(Pipe(request, ms), ns)
  {
    whole := ComposeMiddleware(ms + ns).Handle(request);
    var intermediate := ComposeMiddleware(ms).Handle(request);
    staged := ComposeMiddleware(ns).Handle(intermediate);
    PipeConcat(request, ms, ns);
  }
}
