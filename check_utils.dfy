// The request checks of the run service (apps/vs-run/src/utils/checkUtils.ts).

module CheckUtils {
  import opened Wrappers
  import opened Enums

  const MethodMismatch := "request method differs from the flow's method"

  /** CheckUtil.validateHttpMethod: the request's method must be the one the
      flow was published under; otherwise it throws, naming the request's
      method and then the required one.  The flow itself is a value and is
      left as it was. */
  function ValidateHttpMethod(flowMethod: HttpMethod, requested: HttpMethod): (r: Outcome)
    ensures r == Pass <==> flowMethod == requested
    ensures r != Pass ==> r == Throw(Failure(Adapter, MethodMismatch, [requested.Code(), flowMethod.Code()]))
  {
    if flowMethod != requested then Throw(Failure(Adapter, MethodMismatch, [requested.Code(), flowMethod.Code()]))
    else Pass
  }

  /** A GET request to a POST flow and a POST request to a GET flow are both
      refused, and the message tells the two methods apart. */
  lemma CrossedMethodsRejected()
    ensures ValidateHttpMethod(Post, Get).Throw? && ValidateHttpMethod(Get, Post).Throw?
    ensures ValidateHttpMethod(Post, Get).failure.subjects == ["GET", "POST"]
    ensures ValidateHttpMethod(Get, Post).failure.subjects == ["POST", "GET"]
  {
  }
}
