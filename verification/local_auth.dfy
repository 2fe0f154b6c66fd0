/**
 * The purely local auth hook: a user restored from `jee-prep-user`, a login
 * that makes a user from the email, and a logout that also drops the saved
 * progress.
 */
module LocalAuth {
  import opened Wrappers
  import opened Text
  import opened Storage

  datatype User = User(id: string, email: string, name: string)

  /** The user `login` makes: id "1", named by the text before the first '@' (all of it without one). */
  function LoginUser(email: string): (u: User)
    ensures u.id == "1" && u.email == email
    ensures StartsWith(email, u.name) && '@' !in u.name
    ensures '@' in email ==> email[|u.name|] == '@'
    ensures '@' !in email ==> u.name == email
  {
    var name := BeforeFirst(email, '@');
    assert '@' !in email ==> |name| == |email|;
    User("1", email, name)
  }

  /** For `local@domain`, the user is named `local`. */
  lemma LoginNameOfAddress(local: string, domain: string)
    requires '@' !in local
    ensures LoginUser(local + "@" + domain).name == local
  {
    BeforeFirstOfJoin(local, '@', domain);
  }

  /** State of `useAuth`. */
  class AuthHook {
    var user: Option<User>
    var isLoading: bool
    var store: Store
    const codec: Codec<User>

    constructor (store0: Store, codec: Codec<User>)
      ensures user.None? && isLoading && store == store0 && this.codec == codec
    {
      user := None;
      isLoading := true;
      store := store0;
      this.codec := codec;
    }

    /**
     * The mount effect: restore the stored user. A stored text that does not
     * decode throws before loading is marked finished.
     */
    method Load()
      modifies this
      ensures store == old(store)
      ensures Saved(old(store), UserKey).None? ==> user == old(user) && !isLoading
      ensures Restore(old(store), UserKey, codec).Some? ==>
        user == Restore(old(store), UserKey, codec) && !isLoading
      ensures Saved(old(store), UserKey).Some? && Restore(old(store), UserKey, codec).None? ==>
        user == old(user) && isLoading == old(isLoading)
    {
      var saved := Saved(store, UserKey);
      if saved.Some? {
        var parsed := codec.decode(saved.value);
        if parsed.None? {
          return;
        }
        user := parsed;
      }
      isLoading := false;
    }

    /** `login`: the password is not looked at; the user is set and stored. */
    method Login(email: string, password: string)
      modifies this
      ensures user == Some(LoginUser(email))
      ensures store == old(store)[UserKey := codec.encode(LoginUser(email))]
      ensures isLoading == old(isLoading)
    {
      var u := LoginUser(email);
      user := Some(u);
      store := store[UserKey := codec.encode(u)];
    }

    /** `logout`: forget the user and remove both the user and the progress keys. */
    method Logout()
      modifies this
      ensures user.None?
      ensures store == old(store) - {UserKey, ProgressKey}
      ensures isLoading == old(isLoading)
    {
      user := None;
      store := store - {UserKey};
      store := store - {ProgressKey};
    }
  }

  /** A login survives a reload; after logout neither a user nor saved progress remains. */
  method LoginReloadLogout(store0: Store, c: Codec<User>, email: string, password: string)
    returns (restored: Option<User>, finalStore: Store)
    requires Lawful(c)
    ensures restored == Some(LoginUser(email))
    ensures UserKey !in finalStore && ProgressKey !in finalStore
  {
    var a := new AuthHook(store0, c);
    a.Load();
    a.Login(email, password);
    RestoreSaved(store0, UserKey, c, LoginUser(email));
    var b := new AuthHook(a.store, c);
    b.Load();
    restored := b.user;
    b.Logout();
    finalStore := b.store;
  }
}
