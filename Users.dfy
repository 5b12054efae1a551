/**
 * The support-user store: a list of users fetched from the backend, the
 * user being edited, a loading flag and the last error message. Each
 * action is asynchronous: it sets the loading flag and clears the error,
 * awaits the backend, and then either stores the result or records an
 * error message. The backend's answer is an input here (`Outcome`), and
 * each action is split at its `await` into a `Begin…` part and a
 * `Settle…` part, so that other actions may run in between.
 */
module Users {
  import opened Common

  datatype UserStatus = UserActive | UserInactive

  datatype SupportUser = SupportUser(
    id: string, firstName: string, lastName: string, email: string, phone: string,
    status: UserStatus, createdAt: string, updatedAt: string)

  /** What a rejected call exposes: `error.response?.data?.error` and
      `error.message`, each possibly missing. */
  datatype ApiError = ApiError(responseError: Option<string>, message: Option<string>)

  /** The settled value of an awaited backend call. */
  datatype Outcome<T> = Ok(value: T) | Failed(error: ApiError)

  const FetchUsersFallback := "Failed to fetch users"
  const FetchUserFallback := "Failed to fetch user"
  const CreateUserFallback := "Failed to create user"
  const UpdateUserFallback := "Failed to update user"

  /** A JavaScript value used as an operand of `||`: missing and `''` are falsy. */
  predicate Truthy(o: Option<string>)
  {
    o.Some? && o.value != ""
  }

  /** `error.response?.data?.error || error.message || fallback`: the first
      of the three that is present and non-empty. */
  function ErrorMessage(e: ApiError, fallback: string): (msg: string)
    ensures Truthy(e.responseError) ==> msg == e.responseError.value
    ensures !Truthy(e.responseError) && Truthy(e.message) ==> msg == e.message.value
    ensures !Truthy(e.responseError) && !Truthy(e.message) ==> msg == fallback
  {
    if Truthy(e.responseError) then e.responseError.value
    else if Truthy(e.message) then e.message.value
    else fallback
  }

  /** With a non-empty fallback, as every action has, the recorded message
      is never empty, and it is always one of the three candidates. */
  lemma ErrorMessageNeverEmpty(e: ApiError, fallback: string)
    requires fallback != ""
    ensures ErrorMessage(e, fallback) != ""
    ensures ErrorMessage(e, fallback) in {e.responseError.GetOr(""), e.message.GetOr(""), fallback}
  {
  }

  /** The auth store declares no `token` field, so the user service's two
      read calls find no token and reject with a plain `Error` before any
      request is made: no response, and one of these messages. */
  const NoTokenUsersMessage := "Please login first to view users"
  const NoTokenUserMessage := "Please login first to view user details"

  function NoTokenError(message: string): ApiError
  {
    ApiError(None, Some(message))
  }

  /** Those rejections are what the store records as its error, in place of
      the fallbacks. */
  lemma NoTokenMessagesAreRecorded()
    ensures ErrorMessage(NoTokenError(NoTokenUsersMessage), FetchUsersFallback) == NoTokenUsersMessage
    ensures ErrorMessage(NoTokenError(NoTokenUserMessage), FetchUserFallback) == NoTokenUserMessage
  {
  }

  /** `users.map(u => u.id === id ? updated : u)`. */
  function Replaced(users: seq<SupportUser>, id: string, updated: SupportUser): (r: seq<SupportUser>)
    ensures |r| == |users|
    ensures forall i :: 0 <= i < |users| ==> r[i] == if users[i].id == id then updated else users[i]
  {
    if users == [] then []
    else [if users[0].id == id then updated else users[0]] + Replaced(users[1..], id, updated)
  }

  /** Replacing an id that no user carries leaves the list as it was. */
  lemma {:induction false} ReplacedAbsent(users: seq<SupportUser>, id: string, updated: SupportUser)
    requires forall i :: 0 <= i < |users| ==> users[i].id != id
    ensures Replaced(users, id, updated) == users
  {
    if users != [] {
      ReplacedAbsent(users[1..], id, updated);
    }
  }

  class UserStore {
    var users: seq<SupportUser>
    var currentUser: Option<SupportUser>
    var isLoading: bool
    var error: Option<string>

    constructor ()
      ensures users == [] && currentUser == None && !isLoading && error == None
    {
      users, currentUser, isLoading, error := [], None, false, None;
    }

    /** The part of `fetchUsers`, `addUser` and `updateUser` before the await. */
    method BeginRequest()
      modifies this
      ensures isLoading && error == None
      ensures users == old(users) && currentUser == old(currentUser)
    {
      isLoading, error := true, None;
    }

    /** The part of `fetchUserById` before the await: it also forgets the current user. */
    method BeginFetchUserById()
      modifies this
      ensures isLoading && error == None && currentUser == None
      ensures users == old(users)
    {
      isLoading, error, currentUser := true, None, None;
    }

    /** After the await of `fetchUsers`: a success replaces the list wholesale,
        a failure keeps it and records the message. */
    method SettleFetchUsers(outcome: Outcome<seq<SupportUser>>)
      modifies this
      ensures !isLoading && currentUser == old(currentUser)
      ensures outcome.Ok? ==> users == outcome.value && error == old(error)
      ensures outcome.Failed? ==> users == old(users) && error == Some(ErrorMessage(outcome.error, FetchUsersFallback))
    {
      match outcome
      case Ok(fetched) =>
        users, isLoading := fetched, false;
      case Failed(e) =>
        error, isLoading := Some(ErrorMessage(e, FetchUsersFallback)), false;
    }

    /** After the await of `fetchUserById`. */
    method SettleFetchUserById(outcome: Outcome<SupportUser>)
      modifies this
      ensures !isLoading && users == old(users)
      ensures outcome.Ok? ==> currentUser == Some(outcome.value) && error == old(error)
      ensures outcome.Failed? ==> currentUser == old(currentUser)
      ensures outcome.Failed? ==> error == Some(ErrorMessage(outcome.error, FetchUserFallback))
    {
      match outcome
      case Ok(user) =>
        currentUser, isLoading := Some(user), false;
      case Failed(e) =>
        error, isLoading := Some(ErrorMessage(e, FetchUserFallback)), false;
    }

    /** After the await of `addUser`: a success puts the new user first. */
    method SettleAddUser(outcome: Outcome<SupportUser>) returns (ok: bool)
      modifies this
      ensures !isLoading && currentUser == old(currentUser)
      ensures ok == outcome.Ok?
      ensures outcome.Ok? ==> users == [outcome.value] + old(users) && error == old(error)
      ensures outcome.Failed? ==> users == old(users) && error == Some(ErrorMessage(outcome.error, CreateUserFallback))
    {
      match outcome
      case Ok(created) =>
        users, isLoading := [created] + users, false;
        ok := true;
      case Failed(e) =>
        error, isLoading := Some(ErrorMessage(e, CreateUserFallback)), false;
        ok := false;
    }

    /** After the await of `updateUser`: a success replaces every user with
        that id by the returned record. */
    method SettleUpdateUser(id: string, outcome: Outcome<SupportUser>) returns (ok: bool)
      modifies this
      ensures !isLoading && currentUser == old(currentUser)
      ensures ok == outcome.Ok?
      ensures outcome.Ok? ==> users == Replaced(old(users), id, outcome.value) && error == old(error)
      ensures outcome.Failed? ==> users == old(users) && error == Some(ErrorMessage(outcome.error, UpdateUserFallback))
    {
      match outcome
      case Ok(updated) =>
        users, isLoading := Replaced(users, id, updated), false;
        ok := true;
      case Failed(e) =>
        error, isLoading := Some(ErrorMessage(e, UpdateUserFallback)), false;
        ok := false;
    }

    /** `fetchUsers` when nothing else runs during its await. */
    method FetchUsers(outcome: Outcome<seq<SupportUser>>)
      modifies this
      ensures !isLoading && currentUser == old(currentUser)
      ensures outcome.Ok? ==> users == outcome.value && error == None
      ensures outcome.Failed? ==> users == old(users) && error == Some(ErrorMessage(outcome.error, FetchUsersFallback))
    {
      BeginRequest();
      SettleFetchUsers(outcome);
    }

    /** `fetchUserById` when nothing else runs during its await: a failure
        leaves no current user. */
    method FetchUserById(outcome: Outcome<SupportUser>)
      modifies this
      ensures !isLoading && users == old(users)
      ensures outcome.Ok? ==> currentUser == Some(outcome.value) && error == None
      ensures outcome.Failed? ==> currentUser == None
      ensures outcome.Failed? ==> error == Some(ErrorMessage(outcome.error, FetchUserFallback))
    {
      BeginFetchUserById();
      SettleFetchUserById(outcome);
    }

    /** `addUser` when nothing else runs during its await. */
    method AddUser(outcome: Outcome<SupportUser>) returns (ok: bool)
      modifies this
      ensures !isLoading && currentUser == old(currentUser)
      ensures ok == outcome.Ok?
      ensures outcome.Ok? ==> users == [outcome.value] + old(users) && error == None
      ensures outcome.Failed? ==> users == old(users) && error == Some(ErrorMessage(outcome.error, CreateUserFallback))
    {
      BeginRequest();
      ok := SettleAddUser(outcome);
    }

    /** `updateUser` when nothing else runs during its await. */
    method UpdateUser(id: string, outcome: Outcome<SupportUser>) returns (ok: bool)
      modifies this
      ensures !isLoading && currentUser == old(currentUser)
      ensures ok == outcome.Ok?
      ensures outcome.Ok? ==> users == Replaced(old(users), id, outcome.value) && error == None
      ensures outcome.Failed? ==> users == old(users) && error == Some(ErrorMessage(outcome.error, UpdateUserFallback))
    {
      BeginRequest();
      ok := SettleUpdateUser(id, outcome);
    }
  }
}
