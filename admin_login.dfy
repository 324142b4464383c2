/** The admin sign-in screen (src/screens/Admin/AdminLoginScreen.tsx): field
    validation, the login/register request, and the admin gate that decides
    whether the application switches to the admin role. The request and its
    answer are two events. The answer is modelled by the two fields the screen
    reads from it, `isAdmin` and `_id`. */
module AdminLogin {
  import opened Types
  import opened JsText
  import AppState
  import Navigation

  const FillAllFieldsAlert := Alert("Error", "Please fill in all fields")
  const EnterNameAlert := Alert("Error", "Please enter your name")
  const AuthFailedText := "Authentication failed"

  datatype AuthRequest = AuthRequest(email: string, password: string, name: Option<string>)

  datatype SubmitStep = Reject(alert: Alert) | Login(request: AuthRequest) | Register(request: AuthRequest)

  /** `handleSubmit`'s validation and choice of request. Blankness is judged
      on the trimmed text, but the untrimmed text is sent. */
  function Validate(isLogin: bool, email: string, password: string, name: string): (r: SubmitStep)
    ensures r.Reject? <==> Blank(email) || Blank(password) || (!isLogin && Blank(name))
    ensures r.Reject? && (Blank(email) || Blank(password)) ==> r.alert == FillAllFieldsAlert
    ensures r.Reject? && !Blank(email) && !Blank(password) ==> r.alert == EnterNameAlert
    ensures r.Login? <==> isLogin && !r.Reject?
    ensures r.Login? ==> r.request == AuthRequest(email, password, None)
    ensures r.Register? ==> r.request == AuthRequest(email, password, Some(name))
  {
    if Blank(email) || Blank(password) then Reject(FillAllFieldsAlert)
    else if !isLogin && Blank(name) then Reject(EnterNameAlert)
    else if isLogin then Login(AuthRequest(email, password, None))
    else Register(AuthRequest(email, password, Some(name)))
  }

  /** In login mode the name field is never looked at. */
  lemma LoginIgnoresName(email: string, password: string, n1: string, n2: string)
    ensures Validate(true, email, password, n1) == Validate(true, email, password, n2)
  {
  }

  /** A field of spaces counts as empty. */
  lemma SpacesAreBlank(email: string, password: string, name: string, isLogin: bool)
    requires AllTrimSpace(email)
    ensures Validate(isLogin, email, password, name) == Reject(FillAllFieldsAlert)
  {
    assert Blank(email);
  }

  /** The fields of the answer the screen reads. */
  datatype AuthReply = AuthReply(isAdmin: bool, id: Option<string>)

  /** An answer (possibly empty), or a failure carrying the server's message
      if it sent one. */
  datatype AuthOutcome = Answered(reply: Option<AuthReply>) | Failed(serverMessage: Option<string>)

  datatype AuthDecision = GrantAdmin(userId: Option<string>) | Deny(alert: Alert)

  function Decide(outcome: AuthOutcome): (d: AuthDecision)
    ensures d.GrantAdmin? <==> outcome.Answered? && outcome.reply.Some? && outcome.reply.value.isAdmin
    ensures d.GrantAdmin? ==> d.userId == outcome.reply.value.id
    ensures d.Deny? && outcome.Answered? ==> d.alert == Alert("Error", AuthFailedText)
    ensures d.Deny? && outcome.Failed? ==>
      d.alert == Alert("Error", if Truthy(outcome.serverMessage) then outcome.serverMessage.value else AuthFailedText)
  {
    match outcome
    case Answered(reply) =>
      if reply.Some? && reply.value.isAdmin then GrantAdmin(reply.value.id)
      else Deny(Alert("Error", AuthFailedText))
    case Failed(serverMessage) =>
      Deny(Alert("Error", if Truthy(serverMessage) then serverMessage.value else AuthFailedText))
  }

  class AdminLoginScreen {
    var isLogin: bool
    var email: string
    var password: string
    var name: string
    var loading: bool

    constructor ()
      ensures isLogin && email == "" && password == "" && name == "" && !loading
    {
      isLogin := true;
      email := "";
      password := "";
      name := "";
      loading := false;
    }

    /** The three text fields' change handlers. */
    method EditFields(newEmail: string, newPassword: string, newName: string)
      modifies this
      ensures email == newEmail && password == newPassword && name == newName
      ensures isLogin == old(isLogin) && loading == old(loading)
    {
      email, password, name := newEmail, newPassword, newName;
    }

    /** The switch between the login and the register form. */
    method ToggleForm()
      modifies this
      ensures isLogin == !old(isLogin)
      ensures email == old(email) && password == old(password) && name == old(name) && loading == old(loading)
    {
      isLogin := !isLogin;
    }

    /** The synchronous part of `handleSubmit`: `loading` is set only when a
        request goes out. */
    method Submit() returns (step: SubmitStep)
      modifies this
      ensures step == Validate(isLogin, email, password, name)
      ensures loading == (!step.Reject? || old(loading))
      ensures isLogin == old(isLogin) && email == old(email) && password == old(password) && name == old(name)
    {
      step := Validate(isLogin, email, password, name);
      if !step.Reject? {
        loading := true;
      }
    }

    /** The request settled. Only an admin answer changes the application
        state: the user id is stored and the role becomes "admin", which
        brings up the admin screens. `loading` is reset in every case. */
    method SubmitSettled(ctx: AppState.AppContext, outcome: AuthOutcome) returns (alert: Option<Alert>)
      modifies this, ctx
      ensures !loading
      ensures isLogin == old(isLogin) && email == old(email) && password == old(password) && name == old(name)
      ensures Decide(outcome).GrantAdmin? ==>
        alert == None && ctx.userId == Decide(outcome).userId && ctx.mode == AppState.ModeName(AppState.Admin)
        && ctx.store == AppState.MirrorInto(old(ctx.store), AppState.UserIdKey, Decide(outcome).userId)
                          [AppState.ModeKey := AppState.ModeName(AppState.Admin)]
        && ctx.deviceToken == old(ctx.deviceToken) && ctx.isLoading == old(ctx.isLoading)
        && ctx.currentPlaylist == old(ctx.currentPlaylist)
      ensures Decide(outcome).GrantAdmin? && !ctx.isLoading ==>
        Navigation.Screens(ctx.isLoading, ctx.mode, ctx.deviceToken, ctx.userId).screens[0] == Navigation.AdminDashboard
      ensures Decide(outcome).Deny? ==> alert == Some(Decide(outcome).alert) && unchanged(ctx)
    {
      var d := Decide(outcome);
      if d.GrantAdmin? {
        ctx.SetUserId(d.userId);
        ctx.SetMode(AppState.Admin);
        alert := None;
      } else {
        alert := Some(d.alert);
      }
      loading := false;
    }
  }
}
