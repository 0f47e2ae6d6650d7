/** The sidebar's user badge and logout handler
    (`app/router/dashboard/components/Sidebar.tsx`). */
module Sidebar {
  import opened Wrappers
  import opened Strings
  import opened Http
  import opened AuthService

  const UserNameKey := "userName"

  /** `getUserInfo`: the stored email, else the literal text "name". */
  function UserInfo(st: Storage, hasWindow: bool): (r: Identity)
    ensures !hasWindow ==> r == Identity("...", "Cargando...")
    ensures hasWindow && EmailKey in st && st[EmailKey] != "" ==> r.name == st[EmailKey]
    ensures hasWindow && !(EmailKey in st && st[EmailKey] != "") ==> r == Identity("N", "name")
    ensures hasWindow ==> |r.name| > 0 && r.initial == [UpperChar(r.name[0])]
  {
    if !hasWindow then Identity("...", "Cargando...")
    else
      var userName := OrElse(GetItem(st, hasWindow, EmailKey), Some("name")).GetOr("name");
      Identity(Initial(userName), userName)
  }

  /** `handleLogout` as written: removes "authToken" and "userName" only
      (the redirect to "/" is not modelled). */
  function Logout(st: Storage, hasWindow: bool): (st': Storage)
    ensures !hasWindow ==> st' == st
    ensures hasWindow ==> st'.Keys == st.Keys - {AuthTokenKey, UserNameKey}
    ensures forall k :: k in st' ==> st'[k] == st[k]
  {
    if hasWindow then st - {AuthTokenKey, UserNameKey} else st
  }

  /** After logout no privileged request can be made. */
  lemma LogoutRevokesToken(st: Storage)
    ensures AuthHeader(Logout(st, true), true).Err?
  {
  }

  /** As written, logging in and then out leaves the email and name that
      login stored, so the badge still shows the previous user. */
  lemma LogoutKeepsIdentity(st: Storage, resp: LoginResponse)
    requires resp.email != ""
    ensures var after := Logout(StoreLogin(st, true, resp), true);
      && EmailKey in after && after[EmailKey] == resp.email
      && NameKey in after && after[NameKey] == resp.name
      && UserInfo(after, true).name == resp.email
  {
  }

  /** Logout that forgets the keys login writes, as evidently intended. */
  function LogoutForgettingUser(st: Storage, hasWindow: bool): (st': Storage)
    ensures !hasWindow ==> st' == st
    ensures hasWindow ==> st'.Keys == st.Keys - {AuthTokenKey, UserNameKey, EmailKey, NameKey}
    ensures forall k :: k in st' ==> st'[k] == st[k]
  {
    if hasWindow then st - {AuthTokenKey, UserNameKey, EmailKey, NameKey} else st
  }

  /** With the corrected logout, the badge falls back to the anonymous
      placeholders whatever was stored before and at login. */
  lemma ForgettingLogoutShowsNoUser(st: Storage, resp: LoginResponse)
    ensures var after := LogoutForgettingUser(StoreLogin(st, true, resp), true);
      && UserInfo(after, true) == Identity("N", "name")
      && InitialAndName(after, true) == Identity("U", "Usuario")
      && AuthHeader(after, true).Err?
  {
  }
}
