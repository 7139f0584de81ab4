/** Values shared by every part of the task tracker model. */
module Common {

  /** A value that may be missing: Python's `None` or an absent dictionary key. */
  datatype Option<T> = None | Some(value: T) {
    function GetOr(default: T): T {
      if Some? then value else default
    }
  }

  /** The identifier a document store assigns on insert (an ObjectId), kept abstract. */
  type Id = nat

  /**
   * The authenticated caller of a route: the token's `user_id` and `role`,
   * and the email the task routes read from it, passed explicitly.
   */
  datatype Caller = Caller(userId: string, role: string, email: string)

  function Min(a: int, b: int): int {
    if a <= b then a else b
  }
}
