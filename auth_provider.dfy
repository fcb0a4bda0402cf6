/** `components/providers/auth-provider.tsx`: the signed-in user and the loading flag, set
    step by step by the mount check, `login`, `register` and `logout`. The provider calls the
    API client directly, so each operation takes the client's outcome as a parameter. */
module AuthProvider {
  import opened Wrappers
  import opened Types
  import opened Http
  import Js
  import UseApi

  const BACKEND_MARK: string := "Backend server"

  /** `error instanceof Error && error.message.includes("Backend server")` */
  predicate IsBackendDown(t: Thrown) {
    IsError(t) && Js.Contains(ErrorMessage(t), BACKEND_MARK)
  }

  /** The error the API wrappers throw when nothing came back is one the provider would
      recognise. The provider calls the API client directly, not the wrappers, so from the
      real client this error never reaches the test. */
  lemma WrapperBackendErrorIsRecognised()
    ensures IsBackendDown(Failure(UseApi.BACKEND_DOWN))
  {
    assert UseApi.BACKEND_DOWN[..|BACKEND_MARK|] == BACKEND_MARK;
  }

  /** The body of a `POST /auth/login` reply; only its `user` field is read. */
  datatype LoginReply = LoginReply(user: Option<User>)

  /** The state `AuthProvider` keeps. */
  class AuthProvider {
    var user: Option<User>
    var isLoading: bool

    constructor ()
      ensures user == None && isLoading
    {
      user := None;
      isLoading := true;
    }

    /** The mount check, with `reply` the outcome of `GET /api/user/isLogin`. */
    method CheckAuth(reply: Result<User, Thrown>)
      modifies this
      ensures !isLoading
      ensures reply.Ok? ==> user == Some(reply.value)
      ensures reply.Err? ==> user == old(user)
    {
      match reply {
        case Ok(userData) => user := Some(userData);
        case Err(_) =>
      }
      isLoading := false;
    }

    /** `login(username, password)`, with `reply` the outcome of `POST /auth/login`; returns
        the error it rethrows, if any. */
    method Login(username: string, reply: Result<LoginReply, Thrown>) returns (rethrown: Option<Thrown>)
      modifies this`user
      ensures reply.Ok? ==> rethrown.None? && user == Some(reply.value.user.GetOr(NamedUser(username)))
      ensures reply.Err? && IsBackendDown(reply.error) ==> rethrown.None? && user == Some(NamedUser(username))
      ensures reply.Err? && !IsBackendDown(reply.error) ==> rethrown == Some(reply.error) && user == old(user)
    {
      match reply {
        case Ok(response) =>
          user := Some(response.user.GetOr(NamedUser(username)));
          return None;
        case Err(error) =>
          if IsError(error) && Js.Contains(ErrorMessage(error), BACKEND_MARK) {
            user := Some(NamedUser(username));
            return None;
          }
          return Some(error);
      }
    }

    /** `register(username, email, password)`, with `reply` the outcome of
        `POST /auth/register`; it never touches the state and returns the error it rethrows. */
    method Register(reply: Result<(), Thrown>) returns (rethrown: Option<Thrown>)
      ensures rethrown.Some? <==> reply.Err? && !IsBackendDown(reply.error)
      ensures rethrown.Some? ==> rethrown.value == reply.error
    {
      match reply {
        case Ok(_) => return None;
        case Err(error) =>
          if IsError(error) && Js.Contains(ErrorMessage(error), BACKEND_MARK) {
            return None;
          }
          return Some(error);
      }
    }

    /** `logout()`, with `reply` the outcome of `POST /auth/logout`, which is swallowed. */
    method Logout(reply: Result<(), Thrown>)
      modifies this`user
      ensures user == None
    {
      user := None;
    }
  }
}
