/** Which screens the root stack registers (src/navigation/AppNavigator.tsx),
    as a function of the application state. */
module Navigation {
  import opened Types
  import opened JsText

  datatype Screen =
    | RoleSelection | AdminLogin | AdminDashboard | DisplaySetup | Player
    | AddDevice | UploadMedia | CreatePlaylist | AssignPlaylist

  /** While loading only a spinner is shown; otherwise a stack whose first
      screen is the initial route. */
  datatype NavView = LoadingIndicator | Stack(screens: seq<Screen>)

  /** The display role in the routing sense: any mode other than "unset" and
      "admin" (the stored mode is not checked against the known names). */
  predicate DisplayLike(mode: string) {
    mode != "unset" && mode != "admin"
  }

  function Screens(isLoading: bool, mode: string, deviceToken: Option<string>, userId: Option<string>): (v: NavView)
    ensures v.LoadingIndicator? <==> isLoading
    ensures v.Stack? ==> |v.screens| >= 1
    ensures v.Stack? ==> (Player in v.screens <==> DisplayLike(mode) && Truthy(deviceToken))
    ensures v.Stack? ==> (DisplaySetup in v.screens <==> mode == "unset" || (DisplayLike(mode) && !Truthy(deviceToken)))
    ensures v.Stack? ==> (AdminDashboard in v.screens <==> mode == "admin")
    ensures v.Stack? ==> !(Player in v.screens && DisplaySetup in v.screens)
    ensures v.Stack? ==> forall i, j :: 0 <= i < j < |v.screens| ==> v.screens[i] != v.screens[j]
  {
    if isLoading then LoadingIndicator
    else if mode == "unset" then Stack([RoleSelection, AdminLogin, DisplaySetup])
    else if mode == "admin" then Stack([AdminDashboard, AddDevice, UploadMedia, CreatePlaylist, AssignPlaylist])
    else if Truthy(deviceToken) then Stack([Player])
    else Stack([DisplaySetup])
  }

  /** The exact screen set of each branch. */
  lemma RegisteredScreens(mode: string, deviceToken: Option<string>, userId: Option<string>)
    ensures mode == "unset" ==>
      Screens(false, mode, deviceToken, userId) == Stack([RoleSelection, AdminLogin, DisplaySetup])
    ensures mode == "admin" ==>
      Screens(false, mode, deviceToken, userId) ==
      Stack([AdminDashboard, AddDevice, UploadMedia, CreatePlaylist, AssignPlaylist])
    ensures DisplayLike(mode) ==>
      Screens(false, mode, deviceToken, userId) == Stack(if Truthy(deviceToken) then [Player] else [DisplaySetup])
  {
  }

  /** The signed-in user's id is read but never changes the screen set. */
  lemma UserIdIrrelevant(isLoading: bool, mode: string, deviceToken: Option<string>, u1: Option<string>, u2: Option<string>)
    ensures Screens(isLoading, mode, deviceToken, u1) == Screens(isLoading, mode, deviceToken, u2)
  {
  }

  /** For a display, clearing the token swaps the player for the pairing
      screen, and receiving one swaps them back. */
  lemma TokenHandoff(mode: string, token: string, userId: Option<string>)
    requires DisplayLike(mode) && token != ""
    ensures Screens(false, mode, Some(token), userId) == Stack([Player])
    ensures Screens(false, mode, None, userId) == Stack([DisplaySetup])
  {
  }
}
