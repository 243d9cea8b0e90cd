/** The records the store holds (the `problems` row type), the signed-in identity,
    and the shapes of what the hosted backend and the async thunks hand back. */
module Domain {

  /** A nullable or absent value. */
  datatype Option<+T> = None | Some(value: T)

  /** The `contact_info` JSON column: every key is optional. */
  datatype ContactInfo = ContactInfo(
    email: Option<string>,
    whatsapp: Option<string>,
    phone: Option<string>,
    telegram: Option<string>,
    preferredMethod: Option<string>,
    other: Option<string>)

  /** The object literal `{}`. */
  const EmptyContact := ContactInfo(None, None, None, None, None, None)

  /** A row of the `problems` table. Timestamps are kept as instants (integers). */
  datatype Problem = Problem(
    id: string,
    createdAt: int,
    updatedAt: int,
    title: string,
    description: string,
    requirements: Option<string>,
    tags: Option<seq<string>>,
    userId: string,
    contactInfo: Option<ContactInfo>)

  /** The signed-in identity as the stores see it. */
  datatype User = User(id: string, email: string)

  /** What one call to the hosted backend produces: its `{ data }`, its `{ error }`
      (a machine-readable code and a message), or a thrown exception (whose message
      may be missing, written as ""). */
  datatype Reply<+T> = Data(value: T) | DbError(code: string, message: string) | Thrown(message: string)

  /** How an async thunk settles: `fulfilled` with its return value, or `rejected`
      with the value given to `rejectWithValue`. */
  datatype Outcome<+T, +E> = Fulfilled(value: T) | Rejected(payload: E)

  /** JavaScript's `a || b` on strings: the empty string is falsy. */
  function OrElse(a: string, b: string): string
  {
    if a != "" then a else b
  }
}
