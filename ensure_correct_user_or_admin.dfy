/**
 * The `ensureCorrectUserOrAdmin` middleware: a request may act on the
 * resource of `req.params.username` when its authenticated user is an
 * administrator or is that user. The middleware never throws; it calls
 * `next` once, with no argument on allow and with the error on deny.
 */
module CorrectUserOrAdmin {
  import opened Wrappers
  import opened ExpressError

  /** `req.user`, as the authentication middleware before this one sets it. */
  datatype User = User(username: string, isAdmin: bool)

  /** The parts of the request the middleware reads: `req.user` (absent when `None`) and `req.params.username`. */
  datatype Request = Request(user: Option<User>, paramsUsername: string)

  /** The single call of `next`: `next()` or `next(err)`. */
  datatype NextCall = Next | NextWithError(error: ExpressError)

  /** The body of the `try` block: either it passes or it throws `UnauthorizedError`. */
  function CheckUser(req: Request): Outcome<ExpressError>
  {
    if !(req.user.Some? && (req.user.value.isAdmin || req.user.value.username == req.paramsUsername)) then
      Fail(UnauthorizedError)
    else
      Pass
  }

  /** The middleware: the `catch` turns a thrown error into `next(err)`. */
  function EnsureCorrectUserOrAdmin(req: Request): (call: NextCall)
    // an administrator always passes, whatever the target username
    ensures req.user.Some? && req.user.value.isAdmin ==> call == Next
    // the owner passes, administrator or not
    ensures req.user.Some? && req.user.value.username == req.paramsUsername ==> call == Next
    // no authenticated user is rejected
    ensures req.user.None? ==> call == NextWithError(UnauthorizedError)
    // a user who is neither administrator nor owner is rejected
    ensures req.user.Some? && !req.user.value.isAdmin && req.user.value.username != req.paramsUsername ==>
      call == NextWithError(UnauthorizedError)
  {
    match CheckUser(req)
    case Pass => Next
    case Fail(err) => NextWithError(err)
  }
}
