/** The sign-in page (pages/Login.tsx): password sign-in against the stored users,
    registration of a guest awaiting approval, the optional WeChat binding step, and the
    simulated WeChat scan. The page's delayed steps are kept as a list of pending timers,
    any of which may fire next. Messages are kept as their translation keys. */
module Login {
  import opened Types
  import Storage
  import Text

  datatype View = SignIn | Register | Bind | PendingApproval
  datatype SignInMethod = Scan | Password
  datatype ScanStatus = Waiting | Scanned | Success

  const LoginError := "login.error"
  const PendingError := "login.error.pending"
  const NoBindAccount := "login.noBindAccount"

  /** What a completed sign-in stores for the rest of the portal: the role and the
      display name of the signed-in user. */
  datatype Session = Session(role: Role, name: string)

  /** Where a completed sign-in goes: the caller's callback, or a route. */
  datatype Redirect = CallOnSuccess | NavigateTo(path: string)

  /** The redirect after sign-in, in order of precedence: the callback when the page has
      one, else the page the visitor was sent from, else the home page for a guest and the
      admin area for every other role. */
  function RedirectFor(hasOnSuccess: bool, from: Option<string>, role: Role): (r: Redirect)
    ensures hasOnSuccess <==> r == CallOnSuccess
    ensures !hasOnSuccess && from.Some? && from.value != "" ==> r == NavigateTo(from.value)
    ensures !hasOnSuccess && (from.None? || from.value == "") && role == Guest ==> r == NavigateTo("/")
    ensures !hasOnSuccess && (from.None? || from.value == "") && role != Guest ==> r == NavigateTo("/admin")
  {
    if hasOnSuccess then CallOnSuccess
    else if from.Some? && from.value != "" then NavigateTo(from.value)
    else if role == Guest then NavigateTo("/")
    else NavigateTo("/admin")
  }

  // ---------------------------------------------------------------------------
  // Who may sign in

  function Credentials(username: string, password: string): User -> bool {
    (u: User) => u.username == username && u.password == Some(password)
  }

  function IsBound(u: User): bool {
    u.wechatOpenId != ""
  }

  /** The verdict on the user a sign-in picked: none, one still awaiting approval, or one
      who may sign in. */
  datatype Decision = Rejected | AwaitingApproval | Accepted(user: User)

  function Decide(found: Option<User>): Decision {
    match found
    case None => Rejected
    case Some(u) => if u.status == Some(Pending) then AwaitingApproval else Accepted(u)
  }

  /** Password sign-in: the first user whose username and password both match exactly;
      a pending one is refused. */
  function PasswordDecision(users: seq<User>, username: string, password: string): (r: Decision)
    ensures r == Rejected <==> forall k :: 0 <= k < |users| ==> !Credentials(username, password)(users[k])
    ensures r.Accepted? ==>
      && r.user == users[FirstIndex(users, Credentials(username, password))]
      && r.user.username == username && r.user.password == Some(password)
      && r.user.status != Some(Pending)
    ensures r == AwaitingApproval ==>
      exists k :: 0 <= k < |users| && Credentials(username, password)(users[k]) && users[k].status == Some(Pending)
  {
    Decide(Find(users, Credentials(username, password)))
  }

  /** The simulated scan sign-in: the first user bound to a WeChat account, whoever it is;
      a pending one is refused. */
  function ScanDecision(users: seq<User>): (r: Decision)
    ensures r == Rejected <==> forall k :: 0 <= k < |users| ==> !IsBound(users[k])
    ensures r.Accepted? ==>
      && r.user == users[FirstIndex(users, IsBound)]
      && IsBound(r.user) && r.user.status != Some(Pending)
    ensures r == AwaitingApproval ==>
      exists k :: 0 <= k < |users| && IsBound(users[k]) && users[k].status == Some(Pending)
  {
    Decide(Find(users, IsBound))
  }

  /** The account a registration creates: a guest awaiting approval, shown under the given
      display name or else under the username. */
  function NewUser(now: nat, username: string, password: string, displayName: string): (u: User)
    ensures u.id == "user_" + Text.DecimalString(now)
    ensures u.username == username && u.password == Some(password)
    ensures u.role == Guest && u.status == Some(Pending)
    ensures displayName != "" ==> u.displayName == displayName
    ensures displayName == "" ==> u.displayName == username
    ensures !IsBound(u)
  {
    User("user_" + Text.DecimalString(now), username, Some(password), Guest,
         if displayName == "" then username else displayName, Some(Pending), "")
  }

  /** A newly registered account cannot sign in with its password until approved, as long
      as no earlier account already had the same username and password. */
  lemma NewUserAwaitsApproval(users: seq<User>, u: User, password: string)
    requires u.status == Some(Pending) && u.password == Some(password)
    requires forall k :: 0 <= k < |users| ==> !Credentials(u.username, password)(users[k])
    ensures PasswordDecision(Storage.Upsert(users, u, Storage.UserId), u.username, password) == AwaitingApproval
  {
    var r := Storage.Upsert(users, u, Storage.UserId);
    var p := Credentials(u.username, password);
    Storage.UpsertThenLookup(users, u, Storage.UserId);
    var j := Storage.IndexOfId(r, u.id, Storage.UserId);
    assert p(r[j]);
    assert forall k :: 0 <= k < |r| ==> r[k] == u || r[k] in users;
  }

  // ---------------------------------------------------------------------------
  // The QR code

  const QrService := "https://api.qrserver.com/v1/create-qr-code/?size=200x200&data="
  const OAuthBase := "https://open.weixin.qq.com/connect/qrconnect?appid="
  const RedirectParam := "&redirect_uri="
  const OAuthTail := "&response_type=code&scope=snsapi_login&state=STATE#wechat_redirect"

  /** The WeChat authorisation address for an application id and callback, the callback
      passed through the URI-component encoder. */
  function OAuthUrl(appId: string, callbackUrl: string, encode: string -> string): string {
    OAuthBase + appId + RedirectParam + encode(callbackUrl) + OAuthTail
  }

  /** The application id and the encoded callback can be read back from the address. */
  lemma OAuthUrlFields(appId: string, callbackUrl: string, encode: string -> string)
    ensures var r := OAuthUrl(appId, callbackUrl, encode);
      && Text.StartsWith(r, OAuthBase + appId + RedirectParam)
      && Text.EndsWith(r, OAuthTail)
      && r[|OAuthBase| .. |OAuthBase| + |appId|] == appId
      && r[|OAuthBase| + |appId| + |RedirectParam| .. |r| - |OAuthTail|] == encode(callbackUrl)
  {
    var r := OAuthUrl(appId, callbackUrl, encode);
    assert r == (OAuthBase + appId + RedirectParam) + encode(callbackUrl) + OAuthTail;
  }

  /** The QR image address: empty before the configuration is loaded or without an
      application id, else the QR service asked to draw the encoded authorisation address. */
  function QrUrl(config: Option<WeChatConfig>, encode: string -> string): (r: string)
    ensures r == "" <==> config.None? || config.value.appId == ""
    ensures r != "" ==>
      && Text.StartsWith(r, QrService)
      && r[|QrService|..] == encode(OAuthUrl(config.value.appId, config.value.callbackUrl, encode))
  {
    if config.None? || config.value.appId == "" then ""
    else QrService + encode(OAuthUrl(config.value.appId, config.value.callbackUrl, encode))
  }

  // ---------------------------------------------------------------------------
  // The page

  /** A delayed step the page has scheduled: the scan result (with the registered user as
      it was when the scan started), the switch to the approval notice after binding, the
      return of the scan panel to waiting, and the sign-in after an accepted scan. */
  datatype Timer =
    | ScanResult(isBind: bool, registered: Option<User>)
    | ShowPending
    | BackToWaiting
    | FinishLogin(user: User)

  class LoginPage {
    const store: Storage.ContentStore
    const isEmbedded: bool
    const hasOnSuccess: bool
    /** The page the visitor was sent from, when the router passed one. */
    const from: Option<string>
    var view: View
    var signInMethod: SignInMethod
    var wechatConfig: Option<WeChatConfig>
    var username: string
    var password: string
    var displayName: string
    var registeredUser: Option<User>
    var error: string
    var scanStatus: ScanStatus
    var session: Option<Session>
    var redirect: Option<Redirect>
    var timers: seq<Timer>

    constructor (store: Storage.ContentStore, isEmbedded: bool, hasOnSuccess: bool, from: Option<string>)
      ensures this.store == store && this.isEmbedded == isEmbedded
      ensures this.hasOnSuccess == hasOnSuccess && this.from == from
      ensures view == SignIn && signInMethod == Password && wechatConfig == None
      ensures username == "" && password == "" && displayName == "" && registeredUser == None
      ensures error == "" && scanStatus == Waiting && session == None && redirect == None && timers == []
    {
      this.store := store;
      this.isEmbedded := isEmbedded;
      this.hasOnSuccess := hasOnSuccess;
      this.from := from;
      view := SignIn;
      signInMethod := Password;
      wechatConfig := None;
      username := "";
      password := "";
      displayName := "";
      registeredUser := None;
      error := "";
      scanStatus := Waiting;
      session := None;
      redirect := None;
      timers := [];
    }

    /** The mount effect: scanning is the default when WeChat is enabled and the page is
        not embedded, the password form otherwise. */
    method LoadConfig(config: WeChatConfig)
      modifies this`wechatConfig, this`signInMethod
      ensures wechatConfig == Some(config)
      ensures signInMethod == Scan <==> config.enabled && !isEmbedded
    {
      wechatConfig := Some(config);
      if config.enabled && !isEmbedded {
        signInMethod := Scan;
      } else {
        signInMethod := Password;
      }
    }

    method ResetState()
      modifies this`error, this`scanStatus, this`username, this`password
      ensures error == "" && scanStatus == Waiting && username == "" && password == ""
    {
      error := "";
      scanStatus := Waiting;
      username := "";
      password := "";
    }

    /** A sign-in tab: the chosen method, with the form and the scan panel cleared. */
    method ChooseMethod(m: SignInMethod)
      modifies this`signInMethod, this`error, this`scanStatus, this`username, this`password
      ensures signInMethod == m
      ensures error == "" && scanStatus == Waiting && username == "" && password == ""
    {
      signInMethod := m;
      ResetState();
    }

    /** The link to the registration form, which also clears the form. */
    method ShowRegister()
      modifies this`view, this`error, this`scanStatus, this`username, this`password
      ensures view == Register
      ensures error == "" && scanStatus == Waiting && username == "" && password == ""
    {
      view := Register;
      ResetState();
    }

    /** The back buttons of the registration form and of the approval notice. */
    method BackToSignIn()
      modifies this`view
      ensures view == SignIn
    {
      view := SignIn;
    }

    /** Skipping the binding step. */
    method SkipBind()
      modifies this`view
      ensures view == PendingApproval
    {
      view := PendingApproval;
    }

    /** Records the session and follows the redirect rule. */
    method CompleteLogin(u: User)
      modifies this`session, this`redirect
      ensures session == Some(Session(u.role, u.displayName))
      ensures redirect == Some(RedirectFor(hasOnSuccess, from, u.role))
    {
      session := Some(Session(u.role, u.displayName));
      redirect := Some(RedirectFor(hasOnSuccess, from, u.role));
    }

    /** Password sign-in with the form's username and password. */
    method HandleLogin()
      modifies this`error, this`session, this`redirect
      ensures var d := PasswordDecision(store.users, username, password);
        && (d == Rejected ==> error == LoginError && session == old(session) && redirect == old(redirect))
        && (d == AwaitingApproval ==> error == PendingError && session == old(session) && redirect == old(redirect))
        && (d.Accepted? ==>
              && error == old(error)
              && session == Some(Session(d.user.role, d.user.displayName))
              && redirect == Some(RedirectFor(hasOnSuccess, from, d.user.role)))
    {
      var found := Find(store.users, Credentials(username, password));
      if found.Some? {
        if found.value.status == Some(Pending) {
          error := PendingError;
          return;
        }
        CompleteLogin(found.value);
      } else {
        error := LoginError;
      }
    }

    /** Registration: refused without a username or a password; otherwise the new guest is
        saved and remembered, and the page moves to binding when WeChat is enabled, else
        to the approval notice. */
    method HandleRegister(now: nat)
      modifies store`users, this`error, this`registeredUser, this`view
      ensures store.products == old(store.products) && store.docs == old(store.docs)
      ensures store.versions == old(store.versions) && store.categories == old(store.categories)
      ensures store.topNav == old(store.topNav) && store.aiConfig == old(store.aiConfig)
      ensures username == "" || password == "" ==>
        && error == LoginError && store.users == old(store.users)
        && registeredUser == old(registeredUser) && view == old(view)
      ensures username != "" && password != "" ==>
        var u := NewUser(now, username, password, displayName);
        && error == old(error)
        && store.users == Storage.Upsert(old(store.users), u, Storage.UserId)
        && registeredUser == Some(u)
        && (view == Bind <==> wechatConfig.Some? && wechatConfig.value.enabled)
        && (view != Bind ==> view == PendingApproval)
    {
      if username == "" || password == "" {
        error := LoginError;
        return;
      }
      var u := NewUser(now, username, password, displayName);
      store.SaveUser(u);
      registeredUser := Some(u);
      if wechatConfig.Some? && wechatConfig.value.enabled {
        view := Bind;
      } else {
        view := PendingApproval;
      }
    }

    /** A click on the QR panel: only a waiting panel reacts, by showing the scan and
        scheduling its result. */
    method SimulateScan(isBind: bool)
      modifies this`scanStatus, this`timers
      ensures old(scanStatus) != Waiting ==> scanStatus == old(scanStatus) && timers == old(timers)
      ensures old(scanStatus) == Waiting ==>
        scanStatus == Scanned && timers == old(timers) + [ScanResult(isBind, registeredUser)]
    {
      if scanStatus != Waiting {
        return;
      }
      scanStatus := Scanned;
      timers := timers + [ScanResult(isBind, registeredUser)];
    }

    /** One pending timer fires and is removed. A scan result shows success, then a binding
        scan saves the registered user with the new WeChat id (`wx_` and a random suffix)
        and schedules the approval notice, while a sign-in scan judges the first bound user:
        accepted, its sign-in is scheduled; pending or missing, an error shows and the panel
        is scheduled to return to waiting. */
    method Fire(i: nat, suffix: string)
      requires i < |timers|
      modifies store`users, this`timers, this`scanStatus, this`error, this`view, this`session, this`redirect
      ensures store.products == old(store.products) && store.docs == old(store.docs)
      ensures store.versions == old(store.versions) && store.categories == old(store.categories)
      ensures store.topNav == old(store.topNav) && store.aiConfig == old(store.aiConfig)
      ensures var t := old(timers[i]); var rest := old(timers[..i] + timers[i + 1..]);
        match t
        case ShowPending =>
          && view == PendingApproval && timers == rest
          && scanStatus == old(scanStatus) && error == old(error) && store.users == old(store.users)
          && session == old(session) && redirect == old(redirect)
        case BackToWaiting =>
          && scanStatus == Waiting && timers == rest
          && view == old(view) && error == old(error) && store.users == old(store.users)
          && session == old(session) && redirect == old(redirect)
        case FinishLogin(u) =>
          && session == Some(Session(u.role, u.displayName))
          && redirect == Some(RedirectFor(hasOnSuccess, from, u.role))
          && timers == rest
          && view == old(view) && scanStatus == old(scanStatus) && error == old(error)
          && store.users == old(store.users)
        case ScanResult(isBind, reg) =>
          && scanStatus == Success && view == old(view)
          && session == old(session) && redirect == old(redirect)
          && (isBind && reg.Some? ==>
                && store.users == Storage.Upsert(old(store.users), reg.value.(wechatOpenId := "wx_" + suffix), Storage.UserId)
                && timers == rest + [ShowPending] && error == old(error))
          && (isBind && reg.None? ==> store.users == old(store.users) && timers == rest && error == old(error))
          && (!isBind ==>
                var d := ScanDecision(old(store.users));
                && store.users == old(store.users)
                && (d == Rejected ==> error == NoBindAccount && timers == rest + [BackToWaiting])
                && (d == AwaitingApproval ==> error == PendingError && timers == rest + [BackToWaiting])
                && (d.Accepted? ==> error == old(error) && timers == rest + [FinishLogin(d.user)]))
    {
      var t := timers[i];
      timers := timers[..i] + timers[i + 1..];
      match t {
        case ShowPending =>
          view := PendingApproval;
        case BackToWaiting =>
          scanStatus := Waiting;
        case FinishLogin(u) =>
          CompleteLogin(u);
        case ScanResult(isBind, reg) =>
          scanStatus := Success;
          if isBind && reg.Some? {
            store.SaveUser(reg.value.(wechatOpenId := "wx_" + suffix));
            timers := timers + [ShowPending];
          } else if !isBind {
            var found := Find(store.users, IsBound);
            if found.Some? {
              if found.value.status == Some(Pending) {
                error := PendingError;
                timers := timers + [BackToWaiting];
              } else {
                timers := timers + [FinishLogin(found.value)];
              }
            } else {
              error := NoBindAccount;
              timers := timers + [BackToWaiting];
            }
          }
      }
    }
  }
}
