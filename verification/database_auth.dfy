/**
 * The auth hook with a local fallback: when the remote client cannot be
 * obtained, sign-in and sign-up create a local user kept under
 * `jee-prep-user`, and sign-out removes it. Remote calls are abstract
 * outcomes passed in.
 */
module DatabaseAuth {
  import opened Wrappers
  import opened Text
  import opened Storage

  /** The user object: `{id, email, user_metadata: {name}}`. */
  datatype AuthUser = AuthUser(id: string, email: string, name: string)

  /** How an awaited call ended: normally, or by throwing an error with a message. */
  datatype CallOutcome = Succeeded | Threw(message: string)

  const LocalUserId := "local-user"

  /** The user a local sign-in creates: its name is the text before the first '@'. */
  function LocalSignInUser(email: string): (u: AuthUser)
    ensures u.id == LocalUserId && u.email == email
    ensures StartsWith(email, u.name) && '@' !in u.name
    ensures '@' in email ==> email[|u.name|] == '@'
    ensures '@' !in email ==> u.name == email
  {
    var name := BeforeFirst(email, '@');
    assert '@' !in email ==> |name| == |email|;
    AuthUser(LocalUserId, email, name)
  }

  /** For `local@domain`, the local user is named `local`. */
  lemma LocalNameOfAddress(local: string, domain: string)
    requires '@' !in local
    ensures LocalSignInUser(local + "@" + domain).name == local
  {
    BeforeFirstOfJoin(local, '@', domain);
  }

  /** State of `useDatabaseAuth`. */
  class DatabaseAuthHook {
    var user: Option<AuthUser>
    var isLoading: bool
    var hasClient: bool
    var store: Store
    const codec: Codec<AuthUser>

    constructor (store0: Store, codec: Codec<AuthUser>)
      ensures user.None? && isLoading && !hasClient
      ensures store == store0 && this.codec == codec
    {
      user := None;
      isLoading := true;
      hasClient := false;
      store := store0;
      this.codec := codec;
    }

    /**
     * The mount effect. With the client, the initial session's user (or
     * none) is adopted. Without it, or when fetching the session throws,
     * the stored user is restored; a stored text that does not decode throws
     * out of the `catch` and leaves loading unfinished.
     */
    method Load(clientLoaded: bool, session: Result<Option<AuthUser>, string>)
      modifies this
      ensures hasClient == (old(hasClient) || clientLoaded)
      ensures store == old(store)
      ensures clientLoaded && session.Ok? ==> user == session.value && !isLoading
      ensures (!clientLoaded || session.Err?) && Saved(old(store), UserKey).None? ==>
        user == old(user) && !isLoading
      ensures (!clientLoaded || session.Err?) && Restore(old(store), UserKey, codec).Some? ==>
        user == Restore(old(store), UserKey, codec) && !isLoading
      ensures (!clientLoaded || session.Err?) &&
              Saved(old(store), UserKey).Some? && Restore(old(store), UserKey, codec).None? ==>
                user == old(user) && isLoading == old(isLoading)
    {
      if clientLoaded {
        hasClient := true;
        if session.Ok? {
          user := session.value;
          isLoading := false;
          return;
        }
      }
      var saved := Saved(store, UserKey);
      if saved.Some? {
        var parsed := codec.decode(saved.value);
        if parsed.None? {
          return;
        }
        user := parsed;
      }
      isLoading := false;
    }

    /** `signOut`: remote sign-out with the client; locally, forget the user and its key. */
    method SignOut()
      modifies this
      ensures hasClient ==> user == old(user) && store == old(store)
      ensures !hasClient ==> user.None? && store == old(store) - {UserKey}
      ensures isLoading == old(isLoading) && hasClient == old(hasClient)
    {
      if !hasClient {
        user := None;
        store := store - {UserKey};
      }
    }

    /**
     * `signIn`. With the client the outcome is the remote one (an error is
     * rethrown); locally a user is made from the email alone and stored.
     */
    method SignIn(email: string, password: string, remote: CallOutcome) returns (outcome: CallOutcome)
      modifies this
      ensures hasClient ==> outcome == remote && user == old(user) && store == old(store)
      ensures !hasClient ==>
        outcome == Succeeded && user == Some(LocalSignInUser(email)) &&
        store == old(store)[UserKey := codec.encode(LocalSignInUser(email))]
      ensures isLoading == old(isLoading) && hasClient == old(hasClient)
    {
      if hasClient {
        outcome := remote;
      } else {
        var u := LocalSignInUser(email);
        user := Some(u);
        store := store[UserKey := codec.encode(u)];
        outcome := Succeeded;
      }
    }

    /** `signUp`: as `signIn`, but a local user takes the name given. */
    method SignUp(email: string, password: string, name: string, remote: CallOutcome)
      returns (outcome: CallOutcome)
      modifies this
      ensures hasClient ==> outcome == remote && user == old(user) && store == old(store)
      ensures !hasClient ==>
        outcome == Succeeded && user == Some(AuthUser(LocalUserId, email, name)) &&
        store == old(store)[UserKey := codec.encode(AuthUser(LocalUserId, email, name))]
      ensures isLoading == old(isLoading) && hasClient == old(hasClient)
    {
      if hasClient {
        outcome := remote;
      } else {
        var u := AuthUser(LocalUserId, email, name);
        user := Some(u);
        store := store[UserKey := codec.encode(u)];
        outcome := Succeeded;
      }
    }
  }

  /** Offline, a signed-in local user survives a reload; after sign-out none is restored. */
  method LocalSessionLifecycle(store0: Store, c: Codec<AuthUser>, email: string, password: string)
    returns (afterSignIn: Option<AuthUser>, afterSignOut: Option<AuthUser>)
    requires Lawful(c)
    ensures afterSignIn == Some(LocalSignInUser(email))
    ensures afterSignOut.None?
  {
    var a := new DatabaseAuthHook(store0, c);
    a.Load(false, Err("offline"));
    var _ := a.SignIn(email, password, Succeeded);
    RestoreSaved(a.store, UserKey, c, LocalSignInUser(email));
    var b := new DatabaseAuthHook(a.store, c);
    b.Load(false, Err("offline"));
    afterSignIn := b.user;
    b.SignOut();
    var d := new DatabaseAuthHook(b.store, c);
    d.Load(false, Err("offline"));
    afterSignOut := d.user;
  }
}
