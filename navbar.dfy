/** The navigation bar: the signed-in header with an avatar letter and a
    logout button, or a sign-in link. */
module Navbar {
  import opened Wrappers
  import opened Text
  import Auth
  import Browser
  import Api

  /** What the right-hand side of the bar shows. */
  datatype Header = Account(initial: string, name: Option<string>) | SignIn(link: string)

  /** `user?.name?.charAt(0).toUpperCase() || 'U'`: one letter, the first of a
      non-empty name upper-cased, else `U`. */
  function Initial(name: Option<string>): (r: string)
    ensures |r| == 1
    ensures Truthy(name) ==> r[0] == UpperAscii(name.value[0])
    ensures !Truthy(name) ==> r == "U"
  {
    FirstTruthy([if Truthy(name) then Some([UpperAscii(name.value[0])]) else None], "U")
  }

  /** One render: the user is looked up afresh (which may evict a token that
      cannot be decoded); a user gives the account header, no user the
      sign-in link to the login page. */
  method Render(store: Auth.TokenStore, decode: Auth.Decoder) returns (h: Header)
    modifies store
    ensures var user := if Truthy(old(store.token)) then decode(old(store.token).value) else None;
      && (user.Some? ==> h == Account(Initial(user.value.name), user.value.name))
      && (user.None? ==> h == SignIn(Api.LoginPath))
      && store.token == if Truthy(old(store.token)) && user.None? then None else old(store.token)
  {
    var user := store.GetCurrentUser(decode);
    if user.Some? {
      h := Account(Initial(user.value.name), user.value.name);
    } else {
      h := SignIn(Api.LoginPath);
    }
  }

  /** `handleLogout`: empty the slot, then go to the login page. */
  method HandleLogout(store: Auth.TokenStore, location: Browser.Location)
    modifies store, location
    ensures store.token == None && location.path == Api.LoginPath
  {
    store.Remove();
    location.Navigate(Api.LoginPath);
  }
}
