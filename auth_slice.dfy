/**
 * The signed-in session the front end keeps in its Redux store
 * (frontend/src/redux/authSlice.ts): the user and the token, both null at
 * start; `setUser` records a session, `clearUser` forgets it.
 */
module AuthSlice {
  import opened Wrappers

  datatype Role = Admin | Attendee | Employee

  /** The user record the server returns at sign-in. */
  datatype User = User(
    id: string,
    name: string,
    email: string,
    role: Role,
    password: Option<string>,
    googleId: Option<string>,
    createdAt: int,
    isBlocked: Option<bool>,
    updatedAt: int,
    isVerified: Option<bool>,
    status: Option<string>)

  /** `UserState`; `None` stands for `null`. */
  datatype UserState = UserState(user: Option<User>, token: Option<string>)

  const InitialState := UserState(None, None)

  /** The two actions the slice exports. */
  datatype Action = Set(user: User, token: string) | Clear

  /** The slice's reducer: the state after `action`. */
  function Reduce(s: UserState, action: Action): (r: UserState)
    ensures action.Set? ==> r.user == Some(action.user) && r.token == Some(action.token)
    ensures action.Clear? ==> r.user.None? && r.token.None?
  {
    match action
    case Set(user, token) => UserState(Some(user), Some(token))
    case Clear => UserState(None, None)
  }

  /** The state after a run of actions, the first one first. */
  function ReduceAll(s: UserState, actions: seq<Action>): UserState
    decreases |actions|
  {
    if actions == [] then s else ReduceAll(Reduce(s, actions[0]), actions[1..])
  }

  /** A user is recorded exactly when a token is. */
  predicate Consistent(s: UserState) {
    s.user.Some? <==> s.token.Some?
  }

  /** Clearing twice is clearing once, and clearing any session gives back the initial state. */
  lemma ClearIsIdempotent(s: UserState)
    ensures Reduce(Reduce(s, Clear), Clear) == Reduce(s, Clear) == InitialState
  {
  }

  /** A new session replaces the previous one entirely. */
  lemma SetOverwrites(s: UserState, u1: User, t1: string, u2: User, t2: string)
    ensures Reduce(Reduce(s, Set(u1, t1)), Set(u2, t2)) == Reduce(s, Set(u2, t2))
  {
  }

  /** Signing in then out leaves nothing behind. */
  lemma SetThenClear(s: UserState, u: User, t: string)
    ensures Reduce(Reduce(s, Set(u, t)), Clear) == InitialState
  {
  }

  /**
   * After a run of actions the store holds the session of the last action:
   * the last `Set`'s user and token, nothing after a final `Clear`, and the
   * starting state when there was no action.
   */
  lemma {:induction false} LastActionDecides(s: UserState, actions: seq<Action>)
    ensures actions == [] ==> ReduceAll(s, actions) == s
    ensures actions != [] ==> ReduceAll(s, actions) == Reduce(s, actions[|actions| - 1])
    decreases |actions|
  {
    if |actions| > 1 {
      LastActionDecides(Reduce(s, actions[0]), actions[1..]);
      assert actions[1..][|actions[1..]| - 1] == actions[|actions| - 1];
    }
  }

  /** From the initial state, every run of actions keeps user and token null or non-null together. */
  lemma {:induction false} ReachableIsConsistent(s: UserState, actions: seq<Action>)
    requires Consistent(s)
    ensures Consistent(ReduceAll(s, actions))
    decreases |actions|
  {
    if actions != [] {
      ReachableIsConsistent(Reduce(s, actions[0]), actions[1..]);
    }
  }

  /** The store: the draft state the reducers assign to. */
  class UserSlice {
    var user: Option<User>
    var token: Option<string>

    /** `initialState`. */
    constructor ()
      ensures State() == InitialState
    {
      user := None;
      token := None;
    }

    function State(): UserState
      reads this
    {
      UserState(user, token)
    }

    /** `setUser({ user, token })`. */
    method SetUser(u: User, t: string)
      modifies this
      ensures State() == Reduce(old(State()), Set(u, t))
    {
      user := Some(u);
      token := Some(t);
    }

    /** `clearUser()`. */
    method ClearUser()
      modifies this
      ensures State() == Reduce(old(State()), Clear)
    {
      user := None;
      token := None;
    }
  }
}
