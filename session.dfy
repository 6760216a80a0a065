/**
 * The mock session: one `user` field, restored from the `pc_user` storage entry
 * when the provider mounts and mirrored into it by every sign-in and sign-out.
 */
module Session {
  import opened Wrappers
  import opened Persistence

  /**
   * The user after the mount effect: a stored user record is taken, a stored
   * JSON `null` clears the user, and a missing or unparsable entry keeps the
   * user as it was.
   */
  function Restore(prior: Option<User>, raw: Option<Stored>): (u: Option<User>)
    ensures raw.Some? && raw.value.UserValue? ==> u == Some(raw.value.user)
    ensures raw == Some(NullValue) ==> u == None
    ensures raw.None? || !(raw.value.UserValue? || raw.value.NullValue?) ==> u == prior
  {
    match raw
    case Some(UserValue(v)) => Some(v)
    case Some(NullValue) => None
    case _ => prior
  }

  class AuthProvider {
    var user: Option<User>
    const store: LocalStorage

    /** `useState<User | null>(null)`: nobody is signed in before the mount effect runs. */
    constructor (store: LocalStorage)
      ensures this.store == store && user == None
    {
      this.store := store;
      user := None;
    }

    /** The user and the `pc_user` entry agree. */
    predicate Mirrored()
      reads this, store
    {
      if user.Some? then PcUser in store.entries && store.entries[PcUser] == UserValue(user.value)
      else PcUser !in store.entries
    }

    /** The mount effect: reads `pc_user` and restores the user it holds. */
    method Mount()
      modifies this
      ensures user == Restore(old(user), store.GetItem(PcUser))
    {
      var raw := store.GetItem(PcUser);
      match raw {
        case Some(UserValue(v)) => user := Some(v);
        case Some(NullValue) => user := None;
        case _ =>
      }
    }

    /** `signIn`: sets the user and stores it under `pc_user`; no other entry changes. */
    method SignIn(u: User)
      modifies this, store
      ensures user == Some(u)
      ensures store.entries == old(store.entries)[PcUser := UserValue(u)]
      ensures Mirrored()
    {
      user := Some(u);
      store.SetItem(PcUser, UserValue(u));
    }

    /** `signOut`: clears the user and removes `pc_user`; no other entry changes. */
    method SignOut()
      modifies this, store
      ensures user == None
      ensures store.entries == old(store.entries) - {PcUser}
      ensures Mirrored()
    {
      user := None;
      store.RemoveItem(PcUser);
    }
  }

  /** `useAuth`: the provider's context, or the error it throws outside a provider. */
  function UseAuth(ctx: Option<AuthProvider>): (r: Result<AuthProvider, string>)
    ensures ctx.None? <==> r.Err?
    ensures r.Err? ==> r.error == "useAuth must be used within AuthProvider"
    ensures r.Ok? ==> r.value == ctx.value
  {
    if ctx.None? then Err("useAuth must be used within AuthProvider") else Ok(ctx.value)
  }

  /** Signing in and then out leaves nobody signed in and no `pc_user` entry, whatever came before. */
  method SignInThenOut(p: AuthProvider, u: User)
    modifies p, p.store
    ensures p.user == None
    ensures p.store.entries == old(p.store.entries) - {PcUser}
  {
    p.SignIn(u);
    p.SignOut();
    assert p.store.entries == old(p.store.entries)[PcUser := UserValue(u)] - {PcUser};
  }

  /** A signed-in user survives a reload: a fresh provider over the same storage restores them on mount. */
  method ReloadAfterSignIn(p: AuthProvider, u: User) returns (q: AuthProvider)
    modifies p, p.store
    ensures fresh(q) && q.store == p.store
    ensures q.user == Some(u)
  {
    p.SignIn(u);
    q := new AuthProvider(p.store);
    q.Mount();
  }

  /** After a sign-out a reload finds nobody signed in. */
  method ReloadAfterSignOut(p: AuthProvider) returns (q: AuthProvider)
    modifies p, p.store
    ensures fresh(q) && q.store == p.store
    ensures q.user == None
  {
    p.SignOut();
    q := new AuthProvider(p.store);
    q.Mount();
  }
}
