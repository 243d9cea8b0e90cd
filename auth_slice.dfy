/** The authentication store: the signed-in user, a loading flag and the last error,
    with the thunks that restore the session, sign in, sign up and sign out. */
module AuthSlice {
  import opened Domain

  datatype AuthState = AuthState(user: Option<User>, isLoading: bool, error: Option<string>)

  const InitialAuthState := AuthState(None, false, None)

  /** `fetchUser`: a failure of any kind rejects with a null payload. */
  function FetchUserThunk(reply: Reply<Option<User>>): Outcome<Option<User>, ()>
  {
    match reply
    case Data(u) => Fulfilled(u)
    case DbError(_, _) => Rejected(())
    case Thrown(_) => Rejected(())
  }

  /** The thunks that act on credentials. */
  datatype CredentialOp = SignIn | SignUp | SignOut

  /** The payload used when the caught exception has no message. */
  function CredentialFallback(op: CredentialOp): string
  {
    match op
    case SignIn => "Failed to sign in"
    case SignUp => "Failed to sign up"
    case SignOut => "Failed to sign out"
  }

  /** `signIn`, `signUp` and `signOut`: the backend's error message as it is, or the
      exception's message with a fallback. */
  function CredentialThunk<T>(op: CredentialOp, reply: Reply<T>): Outcome<T, string>
  {
    match reply
    case Data(v) => Fulfilled(v)
    case DbError(_, m) => Rejected(m)
    case Thrown(m) => Rejected(OrElse(m, CredentialFallback(op)))
  }

  /** Restoring the session never reports an error: it yields the user the backend
      returned, or rejects with no payload. The credential thunks succeed exactly when
      the backend does, pass its error message through unchanged, and never reject
      with an empty payload for an exception. */
  lemma ThunkOutcomes<T>(op: CredentialOp, session: Reply<Option<User>>, reply: Reply<T>)
    ensures FetchUserThunk(session).Fulfilled? <==> session.Data?
    ensures session.Data? ==> FetchUserThunk(session).value == session.value
    ensures CredentialThunk(op, reply).Fulfilled? <==> reply.Data?
    ensures reply.Data? ==> CredentialThunk(op, reply).value == reply.value
    ensures reply.DbError? ==> CredentialThunk(op, reply) == Rejected(reply.message)
    ensures reply.Thrown? ==> CredentialThunk(op, reply).payload != ""
    ensures reply.Thrown? && reply.message != "" ==> CredentialThunk(op, reply) == Rejected(reply.message)
  {
  }

  class AuthStore {
    var user: Option<User>
    var isLoading: bool
    var error: Option<string>

    function State(): AuthState
      reads this
    {
      AuthState(user, isLoading, error)
    }

    /** `initialState`. */
    constructor ()
      ensures State() == InitialAuthState
    {
      user, isLoading, error := None, false, None;
    }

    method SetUser(u: Option<User>)
      modifies this
      ensures State() == old(State()).(user := u, isLoading := false)
    {
      user := u;
      isLoading := false;
    }

    method ClearError()
      modifies this
      ensures State() == old(State()).(error := None)
    {
      error := None;
    }

    method StartLoading()
      modifies this
      ensures State() == old(State()).(isLoading := true)
    {
      isLoading := true;
    }

    method StopLoading()
      modifies this
      ensures State() == old(State()).(isLoading := false)
    {
      isLoading := false;
    }

    /** Every `pending` case. */
    method Pending()
      modifies this
      ensures State() == old(State()).(isLoading := true, error := None)
    {
      isLoading := true;
      error := None;
    }

    /** `fetchUser`, `signIn` and `signUp` fulfilled: the returned user (possibly null)
        becomes the signed-in one. */
    method UserFulfilled(u: Option<User>)
      modifies this
      ensures State() == old(State()).(user := u, isLoading := false)
    {
      user := u;
      isLoading := false;
    }

    /** `fetchUser` rejected: a missing session signs the user out without an error. */
    method FetchUserRejected()
      modifies this
      ensures State() == AuthState(None, false, None)
    {
      isLoading := false;
      user := None;
      error := None;
    }

    method SignOutFulfilled()
      modifies this
      ensures State() == old(State()).(user := None, isLoading := false)
    {
      user := None;
      isLoading := false;
    }

    /** `signIn`, `signUp` and `signOut` rejected: the payload becomes the error and the
        user is kept. */
    method CredentialRejected(payload: string)
      modifies this
      ensures State() == old(State()).(isLoading := false, error := Some(payload))
    {
      isLoading := false;
      error := Some(payload);
    }

    /** `dispatch(fetchUser())`: the store ends up holding the backend's user, or
        nobody, and never an error. */
    method FetchUser(session: Reply<Option<User>>)
      modifies this
      ensures State() == AuthState(if session.Data? then session.value else None, false, None)
    {
      Pending();
      match FetchUserThunk(session)
      case Fulfilled(u) => UserFulfilled(u);
      case Rejected(_) => FetchUserRejected();
    }

    /** `dispatch(signIn(..))` and `dispatch(signUp(..))`: the returned user on success;
        otherwise the error is shown and the previous user stays. */
    method SignInOrUp(op: CredentialOp, reply: Reply<Option<User>>)
      requires op != SignOut
      modifies this
      ensures !isLoading
      ensures reply.Data? ==> State() == AuthState(reply.value, false, None)
      ensures !reply.Data? ==>
                State() == old(State()).(isLoading := false, error := Some(CredentialThunk(op, reply).payload))
    {
      Pending();
      match CredentialThunk(op, reply)
      case Fulfilled(u) => UserFulfilled(u);
      case Rejected(m) => CredentialRejected(m);
    }

    /** `dispatch(signOut())`: nobody is signed in afterwards, unless the backend
        failed, in which case the user stays signed in and the error is shown. */
    method SignOutUser(reply: Reply<()>)
      modifies this
      ensures !isLoading
      ensures reply.Data? ==> State() == AuthState(None, false, None)
      ensures !reply.Data? ==>
                State() == old(State()).(isLoading := false, error := Some(CredentialThunk(SignOut, reply).payload))
    {
      Pending();
      match CredentialThunk(SignOut, reply)
      case Fulfilled(_) => SignOutFulfilled();
      case Rejected(m) => CredentialRejected(m);
    }
  }
}
