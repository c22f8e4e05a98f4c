/**
 * `UserViewModel`: the observable user state of the app and the operations
 * that change it through the user gateway. Each operation sets `loading`,
 * calls the gateway, stores the result (or the failure's message in
 * `error`) and clears `loading` whatever happened.
 */
module UserViewModels {

  import opened Wrappers
  import opened UserModel
  import opened Repositories

  /** The four state flows the view model exposes. */
  datatype UserVmState = UserVmState(user: Option<User>, donors: seq<User>, loading: bool, error: Option<string>)

  const InitialUserState := UserVmState(None, [], false, None)

  /** One completed operation together with the gateway's reply to it. */
  datatype UserEvent =
    | CreateUser(user: User, done: Status<()>)
    | GetUserById(uid: string, found: Status<Option<User>>)
    | UpdateUser(user: User, done: Status<()>)
    | DeleteUser(uid: string, done: Status<()>)
    | LoadAllDonors(listed: Status<seq<User>>)
    | LoadDonorsByBloodGroup(bloodGroup: string, listed: Status<seq<User>>)
    | ClearError
  {
    /** Every operation but `clearError` runs in a coroutine with the loading protocol. */
    predicate Launched() { !ClearError? }

    predicate ChangesUser() { CreateUser? || GetUserById? || UpdateUser? || DeleteUser? }

    predicate ChangesDonors() { LoadAllDonors? || LoadDonorsByBloodGroup? }

    /** The gateway call threw. */
    predicate Failed()
    {
      || ((CreateUser? || UpdateUser? || DeleteUser?) && done.Failed?)
      || (GetUserById? && found.Failed?)
      || (ChangesDonors() && listed.Failed?)
    }

    /** `e.localizedMessage` of the exception that was caught. */
    function Message(): Option<string>
      requires Failed()
    {
      if CreateUser? || UpdateUser? || DeleteUser? then done.message
      else if GetUserById? then found.message
      else listed.message
    }
  }

  /** The user held after a successful user operation. */
  function UserAfter(e: UserEvent): Option<User>
    requires e.ChangesUser() && !e.Failed()
  {
    match e
    case CreateUser(u, _) => Some(u)
    case UpdateUser(u, _) => Some(u)
    case GetUserById(_, found) => found.value
    case DeleteUser(_, _) => None
  }

  /** The state after one operation has run to completion. */
  function UserStep(s: UserVmState, e: UserEvent): (t: UserVmState)
    ensures e.ClearError? ==> t == s.(error := None)
    ensures e.Launched() ==> !t.loading
    ensures e.Failed() ==> t.user == s.user && t.donors == s.donors && t.error == e.Message()
    ensures e.Launched() && !e.Failed() ==> t.error == s.error
    ensures e.ChangesUser() ==> t.donors == s.donors
    ensures e.ChangesDonors() ==> t.user == s.user
    ensures e.ChangesUser() && !e.Failed() ==> t.user == UserAfter(e)
    ensures e.ChangesDonors() && !e.Failed() ==> t.donors == e.listed.value
  {
    match e
    case CreateUser(u, r) =>
      if r.Ok? then s.(user := Some(u), loading := false) else s.(error := r.message, loading := false)
    case GetUserById(_, r) =>
      if r.Ok? then s.(user := r.value, loading := false) else s.(error := r.message, loading := false)
    case UpdateUser(u, r) =>
      if r.Ok? then s.(user := Some(u), loading := false) else s.(error := r.message, loading := false)
    case DeleteUser(_, r) =>
      if r.Ok? then s.(user := None, loading := false) else s.(error := r.message, loading := false)
    case LoadAllDonors(r) =>
      if r.Ok? then s.(donors := r.value, loading := false) else s.(error := r.message, loading := false)
    case LoadDonorsByBloodGroup(_, r) =>
      if r.Ok? then s.(donors := r.value, loading := false) else s.(error := r.message, loading := false)
    case ClearError =>
      s.(error := None)
  }

  /** The state after a history of completed operations, oldest first, starting from a fresh view model. */
  function RunUser(h: seq<UserEvent>): UserVmState
  {
    if h == [] then InitialUserState else UserStep(RunUser(h[..|h| - 1]), h[|h| - 1])
  }

  /** Running one more operation is one more step. */
  lemma RunUserAppend(h: seq<UserEvent>, e: UserEvent)
    ensures RunUser(h + [e]) == UserStep(RunUser(h), e)
  {
    assert (h + [e])[..|h|] == h;
  }

  /** The user of the last successful user operation, or none. */
  function LatestUser(h: seq<UserEvent>): Option<User>
  {
    if h == [] then None
    else
      var e := h[|h| - 1];
      if e.ChangesUser() && !e.Failed() then UserAfter(e) else LatestUser(h[..|h| - 1])
  }

  /** The list of the last successful donor query, or the empty list. */
  function LatestDonors(h: seq<UserEvent>): seq<User>
  {
    if h == [] then []
    else
      var e := h[|h| - 1];
      if e.ChangesDonors() && !e.Failed() then e.listed.value else LatestDonors(h[..|h| - 1])
  }

  /** The message of the last failure, unless `clearError` came after it. */
  function LatestError(h: seq<UserEvent>): Option<string>
  {
    if h == [] then None
    else
      var e := h[|h| - 1];
      if e.ClearError? then None else if e.Failed() then e.Message() else LatestError(h[..|h| - 1])
  }

  /**
   * The four flows evolve independently: after any history, `user` is the
   * latest successful user operation's result, `donors` the latest donor
   * query's, `error` the latest uncleared failure's message, and `loading`
   * is false.
   */
  lemma {:induction false} RunUserFields(h: seq<UserEvent>)
    ensures RunUser(h) == UserVmState(LatestUser(h), LatestDonors(h), false, LatestError(h))
  {
    if h != [] {
      RunUserFields(h[..|h| - 1]);
    }
  }

  /**
   * A shown error is the message of a failure after which nothing failed and
   * nothing cleared the error.
   */
  lemma {:induction false} ErrorIsLatestFailure(h: seq<UserEvent>)
    requires RunUser(h).error.Some?
    ensures exists i :: && 0 <= i < |h| && h[i].Failed() && h[i].Message() == RunUser(h).error
                        && forall j :: i < j < |h| ==> !h[j].Failed() && !h[j].ClearError?
  {
    var p, e := h[..|h| - 1], h[|h| - 1];
    if e.Failed() {
      assert h[|h| - 1] == e;
    } else {
      ErrorIsLatestFailure(p);
      var i :| && 0 <= i < |p| && p[i].Failed() && p[i].Message() == RunUser(p).error
               && forall j :: i < j < |p| ==> !p[j].Failed() && !p[j].ClearError?;
      assert h[i] == p[i];
      assert forall j :: i < j < |h| ==> !h[j].Failed() && !h[j].ClearError? by {
        forall j | i < j < |h| ensures !h[j].Failed() && !h[j].ClearError? {
          if j < |p| { assert h[j] == p[j]; }
        }
      }
    }
  }

  /** Any failure whose exception has no message leaves `error` absent, clearing an earlier message. */
  lemma SilentFailureClearsError(s: UserVmState, e: UserEvent)
    requires e.Failed() && e.Message() == None
    ensures UserStep(s, e).error == None
  {
  }

  class UserViewModel {
    const repo: UserRepo

    var user: Option<User>
    var donors: seq<User>
    var loading: bool
    var error: Option<string>

    /** The operations completed so far, with the gateway's replies. */
    ghost var history: seq<UserEvent>

    function State(): UserVmState
      reads this
    {
      UserVmState(user, donors, loading, error)
    }

    /** The flows hold what the completed operations made of them. */
    ghost predicate Valid()
      reads this
    {
      State() == RunUser(history)
    }

    constructor (repo: UserRepo)
      ensures Valid() && this.repo == repo && history == []
      ensures State() == InitialUserState
    {
      this.repo := repo;
      user, donors, loading, error := None, [], false, None;
      history := [];
    }

    /** Appends `e` to the history, whose run has just been brought to `State()`. */
    ghost method Record(e: UserEvent)
      requires State() == UserStep(RunUser(history), e)
      modifies this`history
      ensures history == old(history) + [e] && Valid()
    {
      RunUserAppend(history, e);
      history := history + [e];
    }

    method CreateUser(u: User)
      requires Valid()
      modifies this, repo
      ensures Valid()
      ensures repo.calls == old(repo.calls) + [CreateUserCall(u)]
      ensures var e := UserEvent.CreateUser(u, repo.backend.createUser(old(repo.calls), u));
              history == old(history) + [e] && State() == UserStep(old(State()), e)
    {
      loading := true;
      var r := repo.CreateUser(u);
      if r.Ok? {
        user := Some(u);
      } else {
        error := r.message;
      }
      loading := false;
      Record(UserEvent.CreateUser(u, r));
    }

    method GetUserById(uid: string)
      requires Valid()
      modifies this, repo
      ensures Valid()
      ensures repo.calls == old(repo.calls) + [GetUserByIdCall(uid)]
      ensures var e := UserEvent.GetUserById(uid, repo.backend.getUserById(old(repo.calls), uid));
              history == old(history) + [e] && State() == UserStep(old(State()), e)
    {
      loading := true;
      var r := repo.GetUserById(uid);
      if r.Ok? {
        user := r.value;
      } else {
        error := r.message;
      }
      loading := false;
      Record(UserEvent.GetUserById(uid, r));
    }

    method UpdateUser(u: User)
      requires Valid()
      modifies this, repo
      ensures Valid()
      ensures repo.calls == old(repo.calls) + [UpdateUserCall(u)]
      ensures var e := UserEvent.UpdateUser(u, repo.backend.updateUser(old(repo.calls), u));
              history == old(history) + [e] && State() == UserStep(old(State()), e)
    {
      loading := true;
      var r := repo.UpdateUser(u);
      if r.Ok? {
        user := Some(u);
      } else {
        error := r.message;
      }
      loading := false;
      Record(UserEvent.UpdateUser(u, r));
    }

    method DeleteUser(uid: string)
      requires Valid()
      modifies this, repo
      ensures Valid()
      ensures repo.calls == old(repo.calls) + [DeleteUserCall(uid)]
      ensures var e := UserEvent.DeleteUser(uid, repo.backend.deleteUser(old(repo.calls), uid));
              history == old(history) + [e] && State() == UserStep(old(State()), e)
    {
      loading := true;
      var r := repo.DeleteUser(uid);
      if r.Ok? {
        user := None;
      } else {
        error := r.message;
      }
      loading := false;
      Record(UserEvent.DeleteUser(uid, r));
    }

    method LoadAllDonors()
      requires Valid()
      modifies this, repo
      ensures Valid()
      ensures repo.calls == old(repo.calls) + [GetAllDonorsCall]
      ensures var e := UserEvent.LoadAllDonors(repo.backend.getAllDonors(old(repo.calls)));
              history == old(history) + [e] && State() == UserStep(old(State()), e)
    {
      loading := true;
      var r := repo.GetAllDonors();
      if r.Ok? {
        donors := r.value;
      } else {
        error := r.message;
      }
      loading := false;
      Record(UserEvent.LoadAllDonors(r));
    }

    method LoadDonorsByBloodGroup(bloodGroup: string)
      requires Valid()
      modifies this, repo
      ensures Valid()
      ensures repo.calls == old(repo.calls) + [GetDonorsByBloodGroupCall(bloodGroup)]
      ensures var e := UserEvent.LoadDonorsByBloodGroup(bloodGroup, repo.backend.getDonorsByBloodGroup(old(repo.calls), bloodGroup));
              history == old(history) + [e] && State() == UserStep(old(State()), e)
    {
      loading := true;
      var r := repo.GetDonorsByBloodGroup(bloodGroup);
      if r.Ok? {
        donors := r.value;
      } else {
        error := r.message;
      }
      loading := false;
      Record(UserEvent.LoadDonorsByBloodGroup(bloodGroup, r));
    }

    /** Runs outside any coroutine and makes no gateway call. */
    method ClearError()
      requires Valid()
      modifies this
      ensures Valid()
      ensures history == old(history) + [UserEvent.ClearError]
      ensures State() == old(State()).(error := None)
    {
      error := None;
      Record(UserEvent.ClearError);
    }
  }
}
