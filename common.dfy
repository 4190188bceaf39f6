/** Values shared by the three components: optional values, the `{ error }`
    replies of the hosted identity, storage and database services, files and users. */
module Common {

  datatype Option<+T> = None | Some(value: T) {
    function GetOr(default: T): T
    {
      match this
      case Some(v) => v
      case None => default
    }
  }

  /** A service reply of the shape `{ error }`: either an error object carrying
      a message, or no error. */
  datatype Reply = ErrorReply(message: string) | OkReply

  type Bytes = seq<bv8>

  /** A file picked in a file input. */
  datatype File = File(name: string, content: Bytes)

  /** The signed-in user as returned by the identity service. */
  datatype User = User(id: string, email: Option<string>)

  /** JavaScript's `s || fallback` on a nullable string: null and "" are falsy. */
  function OrElse(s: Option<string>, fallback: string): string
  {
    if s.Some? && s.value != "" then s.value else fallback
  }

  /** A busy flag as a count of outstanding calls: 1 while set, else 0. */
  function Busy(flag: bool): nat
  {
    if flag then 1 else 0
  }
}
