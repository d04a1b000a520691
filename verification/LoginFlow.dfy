/** The login flow: password, then TOTP or a passkey, with recovery codes, enrolment and
    replay of completed flows (server/src/hyproxy/idp/flows.py,
    server/src/hyproxy/idp/web/routes.py, server/src/hyproxy/idp/web/webauthn_routes.py).

    Argon2, TOTP and WebAuthn checks are predicates of the settings. Whether the
    throttle holds a request back is an input of the request. */
module LoginFlow {
  import opened Prelude
  import opened Rows
  import IdpSessions

  datatype Config = Config(
    sessions: IdpSessions.Config, absoluteTtl: int, flowTtl: int,
    password: (Id, string) -> bool, otp: (Id, string, Instant) -> bool,
    assertion: (Id, Id, string) -> bool, registration: (Id, string) -> bool)

  datatype Stage = Password | Totp | Passkey

  datatype Flow = Flow(
    csrf: Id, ip: string, stage: Stage, user: Option<Id>, recoveryUsed: bool,
    completed: Option<Id>, challenge: Option<Id>, createdAt: Instant, expires: Instant)

  datatype Account = Account(passwordHash: Id, active: bool, admin: bool)

  datatype TotpRow = TotpRow(secret: Id, confirmed: bool)

  datatype RecoveryRow = RecoveryRow(user: Id, used: bool)

  datatype Credential = Credential(user: Id, createdAt: Instant)

  /** The account tables. `emails` is the unique index on addresses. */
  datatype Accounts = Accounts(
    users: map<Id, Account>, emails: map<string, Id>, totp: map<Id, TotpRow>,
    recovery: map<Id, RecoveryRow>, creds: map<Id, Credential>)

  /** What proved the second factor. */
  datatype Proof =
    | OtpCode(code: string)
    | EnrolledOtp(code: string)
    | Assertion(cred: Id, challenge: Id, response: string)

  /** The parts of a form post the guards look at: the flow named, the flow cookie, the
      form token, the address and the browser's session cookie. */
  datatype Post = Post(flow: Id, cookie: Option<Id>, csrf: Id, ip: string, session: Option<Cookie>)

  /** A request with the flow row and the account tables it found. */
  datatype Request = Request(post: Post, throttled: bool, was: Flow, accounts: Accounts)

  /** What the handlers report. */
  datatype Entry =
    | PasswordOk(at: Instant, flow: Id, user: Id, admin: bool, email: string, password: string, request: Request)
    | RecoveryOk(at: Instant, flow: Id, user: Id, code: Id, request: Request)
    | Created(at: Instant, flow: Id, session: Id, row: Session, proof: Proof, request: Request)
    | Resumed(at: Instant, flow: Id, session: Id)

  datatype State = State(
    now: Instant, next: Id, flows: map<Id, Flow>, a: Accounts, sessions: map<Id, Session>, log: seq<Entry>)

  // ------------------------------------------------------------------- guards

  predicate LiveFlow(s: State, flow: Id) { flow in s.flows && s.flows[flow].expires > s.now }

  /** `get_valid_flow` with the address pinned once the flow carries an identity. */
  predicate PinnedFlow(s: State, flow: Id, ip: string) {
    LiveFlow(s, flow) && (s.flows[flow].user.Some? ==> s.flows[flow].ip == ip)
  }

  /** `get_stage_flow`. */
  predicate StageFlow(s: State, p: Post, stage: Stage) {
    LiveFlow(s, p.flow) && s.flows[p.flow].stage == stage && s.flows[p.flow].user.Some? && p.cookie == Some(p.flow)
  }

  predicate Guarded(s: State, p: Post, stage: Stage) {
    StageFlow(s, p, stage) && s.flows[p.flow].csrf == p.csrf
  }

  predicate ActiveUser(s: State, user: Id) { user in s.a.users && s.a.users[user].active }

  predicate Confirmed(s: State, user: Id) { user in s.a.totp && s.a.totp[user].confirmed }

  // -------------------------------------------------------------- small effects

  function WithFlow(s: State, flow: Id, row: Flow): State { s.(flows := s.flows[flow := row]) }

  function Reissued(s: State, flow: Id): State
    requires flow in s.flows
  {
    s.(flows := s.flows[flow := s.flows[flow].(csrf := s.next)], next := s.next + 1)
  }

  predicate CookieNames(s: State, cookie: Option<Cookie>) {
    cookie.Some? && cookie.value.id in s.sessions && s.sessions[cookie.value.id].secret == cookie.value.secret
  }

  /** The browser already holds a live session. */
  predicate Authenticated(cfg: Config, s: State, p: Post) {
    CookieNames(s, p.session) && IdpSessions.Alive(cfg.sessions, s.sessions[p.session.value.id], s.now)
  }

  /** `redirect_if_authenticated`: the liveness check it makes. */
  function Onward(cfg: Config, s: State, p: Post): State {
    if CookieNames(s, p.session)
    then s.(sessions := s.sessions[p.session.value.id :=
             IdpSessions.Checked(cfg.sessions, s.sessions[p.session.value.id], p.ip, s.now, false)])
    else s
  }

  function NewSession(cfg: Config, s: State, user: Id, ip: string, amr: set<Factor>): Session
    requires user in s.a.users
  {
    Session(user, s.next + 1, ip, s.a.users[user].admin, amr, s.now, s.now, s.now + cfg.absoluteTtl * SECOND, false,
        false)
  }

  function OtpAmr(f: Flow): set<Factor> { if f.recoveryUsed then {Pwd, Rc, Otp} else {Pwd, Otp} }

  /** `finalize_login`: the session, and the flow kept and pinned to it. */
  function Finalized(cfg: Config, s: State, user: Id, amr: set<Factor>, proof: Proof, r: Request): State
    requires r.post.flow in s.flows && user in s.a.users
  {
    var flow := r.post.flow;
    var row := NewSession(cfg, s, user, r.post.ip, amr);
    s.(sessions := s.sessions[s.next := row], next := s.next + 2,
       flows := s.flows[flow := s.flows[flow].(completed := Some(s.next))],
       log := s.log + [Created(s.now, flow, s.next, row, proof, r)])
  }

  function Found(s: State, p: Post, throttled: bool): Request
    requires p.flow in s.flows
  {
    Request(p, throttled, s.flows[p.flow], s.a)
  }

  predicate Resumable(cfg: Config, s: State, flow: Id, ip: string)
    requires flow in s.flows && s.flows[flow].completed.Some?
  {
    var session := s.flows[flow].completed.value;
    session in s.sessions && IdpSessions.Admitted(cfg.sessions, s.sessions[session], ip, s.now, true)
  }

  /** `resume_completed_login`: the liveness check, and a new cookie when it passes. */
  function AfterResume(cfg: Config, s: State, flow: Id, ip: string): State
    requires flow in s.flows && s.flows[flow].completed.Some?
  {
    var session := s.flows[flow].completed.value;
    if session !in s.sessions then s
    else
      var checked := IdpSessions.Checked(cfg.sessions, s.sessions[session], ip, s.now, true);
      if Resumable(cfg, s, flow, ip)
      then s.(sessions := s.sessions[session := checked.(secret := s.next)], next := s.next + 1)
      else s.(sessions := s.sessions[session := checked])
  }

  function Logged(s: State, e: Entry): State { s.(log := s.log + [e]) }

  // ------------------------------------------------------------------ handlers

  /** GET `/auth/login`. */
  function LoginForm(cfg: Config, s: State, flow: Option<Id>, p: Post): State {
    var t := Onward(cfg, s, p);
    if Authenticated(cfg, s, p) then t
    else if flow.Some? && PinnedFlow(s, flow.value, p.ip) && s.flows[flow.value].stage == Password
        then Reissued(t, flow.value)
    else
      var kept := if flow.Some? && PinnedFlow(s, flow.value, p.ip) then t.flows - {flow.value} else t.flows;
      var row := Flow(s.next + 1, p.ip, Password, None, false, None, None, s.now, s.now + cfg.flowTtl * SECOND);
      t.(flows := kept[s.next := row], next := s.next + 2)
  }

  /** The flow `/oidc/authorize` parks for a browser without a live session. */
  function ParkFlow(cfg: Config, s: State, ip: string): State {
    var row := Flow(s.next + 1, ip, Password, None, false, None, None, s.now, s.now + cfg.flowTtl * SECOND);
    s.(flows := s.flows[s.next := row], next := s.next + 2)
  }

  predicate PasswordPasses(cfg: Config, s: State, email: string, password: string) {
    email in s.a.emails && ActiveUser(s, s.a.emails[email])
    && cfg.password(s.a.users[s.a.emails[email]].passwordHash, password)
  }

  /** POST `/auth/login`. The second factor follows the tier the account has now. */
  function LoginSubmit(cfg: Config, s: State, p: Post, email: string, password: string, throttled: bool): State {
    if !PinnedFlow(s, p.flow, p.ip) || p.cookie != Some(p.flow) then s
    else if s.flows[p.flow].csrf != p.csrf || s.flows[p.flow].stage != Password then s
    else if throttled || !PasswordPasses(cfg, s, email, password) then s
    else
      var user := s.a.emails[email];
      var admin := s.a.users[user].admin;
      var second := if admin then Passkey else Totp;
      Logged(WithFlow(s, p.flow, s.flows[p.flow].(user := Some(user), stage := second, ip := p.ip)),
             PasswordOk(s.now, p.flow, user, admin, email, password, Found(s, p, throttled)))
  }

  /** POST `/auth/totp`. */
  function TotpSubmit(cfg: Config, s: State, p: Post, code: string, throttled: bool): State {
    if !Guarded(s, p, Totp) then Onward(cfg, s, p)
    else
      var f := s.flows[p.flow];
      var user := f.user.value;
      if f.completed.Some? then
        var t := AfterResume(cfg, s, p.flow, p.ip);
        if Resumable(cfg, s, p.flow, p.ip) && ActiveUser(s, user)
            then Logged(t, Resumed(s.now, p.flow, f.completed.value)) else t
      else if !ActiveUser(s, user) || throttled || !Confirmed(s, user) then s
      else if !cfg.otp(s.a.totp[user].secret, code, s.now) then Reissued(s, p.flow)
      else Finalized(cfg, s, user, OtpAmr(f), OtpCode(code), Found(s, p, throttled))
  }

  /** GET `/auth/enroll/totp`. */
  function EnrollForm(s: State, p: Post): State {
    if !StageFlow(s, p, Totp) || !ActiveUser(s, s.flows[p.flow].user.value) then s
    else
      var user := s.flows[p.flow].user.value;
      if s.a.users[user].admin || Confirmed(s, user) then s
      else
        var t := if user in s.a.totp then s
                 else s.(a := s.a.(totp := s.a.totp[user := TotpRow(s.next, false)]), next := s.next + 1);
        Reissued(t, p.flow)
  }

  /** `issue_batch`: ten fresh codes instead of the unused ones. */
  function FreshBatch(recovery: map<Id, RecoveryRow>, user: Id, next: Id): map<Id, RecoveryRow> {
    (map k | k in recovery && !(recovery[k].user == user && !recovery[k].used) :: recovery[k]) + Batch(user, next, 10)
  }

  function Batch(user: Id, next: Id, size: nat): map<Id, RecoveryRow> {
    if size == 0 then map[] else Batch(user, next, size - 1)[next + size - 1 := RecoveryRow(user, false)]
  }

  /** POST `/auth/enroll/totp`. It creates a session whatever became of the flow so far. */
  function EnrollSubmit(cfg: Config, s: State, p: Post, code: string, throttled: bool): State {
    if !Guarded(s, p, Totp) then Onward(cfg, s, p)
    else
      var f := s.flows[p.flow];
      var user := f.user.value;
      if !ActiveUser(s, user) || s.a.users[user].admin || throttled then s
      else if user !in s.a.totp || s.a.totp[user].confirmed then s
      else if !cfg.otp(s.a.totp[user].secret, code, s.now) then Reissued(s, p.flow)
      else
        var row := NewSession(cfg, s, user, p.ip, OtpAmr(f));
        s.(a := s.a.(totp := s.a.totp[user := s.a.totp[user].(confirmed := true)],
                     recovery := FreshBatch(s.a.recovery, user, s.next + 2)),
           next := s.next + 12, sessions := s.sessions[s.next := row], flows := s.flows - {p.flow},
           log := s.log + [Created(s.now, p.flow, s.next, row, EnrolledOtp(code), Found(s, p, throttled))])
  }

  predicate RecoveryMatches(s: State, user: Id, code: Id) {
    code in s.a.recovery && s.a.recovery[code].user == user && !s.a.recovery[code].used
  }

  /** POST `/auth/recovery`. */
  function RecoverySubmit(cfg: Config, s: State, p: Post, code: Id, throttled: bool): State {
    if !Guarded(s, p, Totp) then Onward(cfg, s, p)
    else
      var user := s.flows[p.flow].user.value;
      if !ActiveUser(s, user) || throttled then s
      else if !RecoveryMatches(s, user, code) then Reissued(s, p.flow)
      else
        Logged(WithFlow(s, p.flow, s.flows[p.flow].(recoveryUsed := true)).(
                 a := s.a.(totp := s.a.totp - {user}, recovery := s.a.recovery[code := RecoveryRow(user, true)])),
               RecoveryOk(s.now, p.flow, user, code, Found(s, p, throttled)))
  }

  predicate HasCredential(s: State, user: Id) { exists c :: c in s.a.creds && s.a.creds[c].user == user }

  /** `_bootstrap_enroll_allowed`. */
  predicate BootstrapAllowed(s: State, user: Id, flow: Flow) {
    forall c :: c in s.a.creds && s.a.creds[c].user == user ==> s.a.creds[c].createdAt >= flow.createdAt
  }

  function Challenged(s: State, flow: Id): State
    requires flow in s.flows
  {
    s.(flows := s.flows[flow := s.flows[flow].(challenge := Some(s.next))], next := s.next + 1)
  }

  /** POST `/auth/webauthn/options` and `/auth/enroll/webauthn/options`. */
  function PasskeyOptions(s: State, p: Post, enrolling: bool): State {
    if !Guarded(s, p, Passkey) || !ActiveUser(s, s.flows[p.flow].user.value) then s
    else
      var user := s.flows[p.flow].user.value;
      if (if enrolling then BootstrapAllowed(s, user, s.flows[p.flow]) else HasCredential(s, user))
          then Challenged(s, p.flow) else s
  }

  /** POST `/auth/webauthn/verify`. */
  function PasskeyVerify(cfg: Config, s: State, p: Post, cred: Id, response: string, throttled: bool): State {
    if !Guarded(s, p, Passkey) || !ActiveUser(s, s.flows[p.flow].user.value) then s
    else
      var f := s.flows[p.flow];
      var user := f.user.value;
      if f.completed.Some? then
        var t := AfterResume(cfg, s, p.flow, p.ip);
        if Resumable(cfg, s, p.flow, p.ip) then Logged(t, Resumed(s.now, p.flow, f.completed.value)) else t
      else if throttled then s
      else
        var spent := WithFlow(s, p.flow, f.(challenge := None));
        if f.challenge.None? then spent
        else if cred !in s.a.creds || s.a.creds[cred].user != user then spent
        else if !cfg.assertion(cred, f.challenge.value, response) then spent
        else Finalized(cfg, spent, user, {Pwd, Webauthn}, Assertion(cred, f.challenge.value, response),
            Found(s, p, throttled))
  }

  /** POST `/auth/enroll/webauthn/verify`. */
  function PasskeyEnroll(cfg: Config, s: State, p: Post, response: string): State {
    if !Guarded(s, p, Passkey) || !ActiveUser(s, s.flows[p.flow].user.value) then s
    else
      var f := s.flows[p.flow];
      var user := f.user.value;
      if !BootstrapAllowed(s, user, f) then s
      else
        var spent := WithFlow(s, p.flow, f.(challenge := None));
        if f.challenge.None? || !cfg.registration(f.challenge.value, response) then spent
        else spent.(a := s.a.(creds := s.a.creds[s.next := Credential(user, s.now)]), next := s.next + 1)
  }

  /** The pages that do nothing but show a form with a fresh token. */
  datatype FormPage = TotpPage | RecoveryPage | PasskeyPage | PasskeyEnrollPage

  function StageOf(page: FormPage): Stage { if page.TotpPage? || page.RecoveryPage? then Totp else Passkey }

  /** Whether the page is shown once its flow is found, or refused or sent elsewhere. */
  predicate Shown(s: State, page: FormPage, user: Id, flow: Flow) {
    match page
    case RecoveryPage => true
    case TotpPage => ActiveUser(s, user) && Confirmed(s, user)
    case PasskeyPage => ActiveUser(s, user) && HasCredential(s, user)
    case PasskeyEnrollPage => ActiveUser(s, user) && BootstrapAllowed(s, user, flow)
  }

  /** GET of a second-factor page. */
  function PageForm(s: State, page: FormPage, p: Post): State {
    if StageFlow(s, p, StageOf(page)) && Shown(s, page, s.flows[p.flow].user.value, s.flows[p.flow])
    then Reissued(s, p.flow)
    else s
  }

  // ---------------------------------------------------------------------- runs

  /** `Elsewhere` is everything the rest of the system does to accounts and sessions,
      `Forget` every other deletion of a flow: expiry, a cascade, a logout page. */
  datatype Action =
    | OpenLogin(flow: Option<Id>, p: Post)
    | Park(ip: string)
    | PostPassword(p: Post, email: string, password: string, throttled: bool)
    | PostTotp(p: Post, code: string, throttled: bool)
    | OpenEnroll(p: Post)
    | PostEnroll(p: Post, code: string, throttled: bool)
    | PostRecovery(p: Post, recovery: Id, throttled: bool)
    | PostOptions(p: Post, enrolling: bool)
    | PostAssertion(p: Post, cred: Id, response: string, throttled: bool)
    | PostRegistration(p: Post, response: string)
    | OpenPage(page: FormPage, p: Post)
    | Elsewhere(a: Accounts, sessions: map<Id, Session>, taken: nat)
    | Forget(gone: Id)

  datatype Event = Event(dt: nat, action: Action)

  function Apply(cfg: Config, s: State, action: Action): State {
    match action
    case OpenLogin(flow, p) => LoginForm(cfg, s, flow, p)
    case Park(ip) => ParkFlow(cfg, s, ip)
    case PostPassword(p, email, password, throttled) => LoginSubmit(cfg, s, p, email, password, throttled)
    case PostTotp(p, code, throttled) => TotpSubmit(cfg, s, p, code, throttled)
    case OpenEnroll(p) => EnrollForm(s, p)
    case PostEnroll(p, code, throttled) => EnrollSubmit(cfg, s, p, code, throttled)
    case PostRecovery(p, recovery, throttled) => RecoverySubmit(cfg, s, p, recovery, throttled)
    case PostOptions(p, enrolling) => PasskeyOptions(s, p, enrolling)
    case PostAssertion(p, cred, response, throttled) => PasskeyVerify(cfg, s, p, cred, response, throttled)
    case PostRegistration(p, response) => PasskeyEnroll(cfg, s, p, response)
    case OpenPage(page, p) => PageForm(s, page, p)
    case Elsewhere(a, sessions, taken) => s.(a := a, sessions := sessions, next := s.next + taken)
    case Forget(gone) => s.(flows := s.flows - {gone})
  }

  function Step(cfg: Config, s: State, e: Event): State {
    Apply(cfg, s.(now := s.now + e.dt), e.action)
  }

  function Run(cfg: Config, s: State, events: seq<Event>): State
    decreases |events|
  {
    if events == [] then s else Run(cfg, Step(cfg, s, events[0]), events[1..])
  }

  // ------------------------------------------------- what the log says of a flow

  datatype Pass = Pass(user: Id, admin: bool)

  /** The password step a flow went through. */
  function Passed(log: seq<Entry>, flow: Id): Option<Pass> {
    if log == [] then None
    else
      var last := log[|log| - 1];
      if last.PasswordOk? && last.flow == flow then Some(Pass(last.user, last.admin))
          else Passed(log[..|log| - 1], flow)
  }

  /** Whether a recovery code was consumed in a flow. */
  predicate Recovered(log: seq<Entry>, flow: Id) {
    log != [] && ((log[|log| - 1].RecoveryOk? && log[|log| - 1].flow == flow) || Recovered(log[..|log| - 1], flow))
  }

  /** The last session created in a flow. */
  function Minted(log: seq<Entry>, flow: Id): Option<Id> {
    if log == [] then None
    else
      var last := log[|log| - 1];
      if last.Created? && last.flow == flow then Some(last.session) else Minted(log[..|log| - 1], flow)
  }

  lemma Snoc(log: seq<Entry>, e: Entry, flow: Id)
    ensures Passed(log + [e], flow) == if e.PasswordOk? && e.flow == flow then Some(Pass(e.user, e.admin))
        else Passed(log, flow)
    ensures Recovered(log + [e], flow) <==> (e.RecoveryOk? && e.flow == flow) || Recovered(log, flow)
    ensures Minted(log + [e], flow) == if e.Created? && e.flow == flow then Some(e.session) else Minted(log, flow)
  {
    assert (log + [e])[..|log|] == log;
  }

  // ------------------------------------------------------------- invariants

  /** A flow row is what the log says of the flow. */
  predicate RowRight(log: seq<Entry>, flow: Id, row: Flow) {
    && (match Passed(log, flow)
        case None => row.stage == Password && row.user == None
        case Some(p) => row.user == Some(p.user) && row.stage == if p.admin then Passkey else Totp)
    && (row.recoveryUsed <==> Recovered(log, flow)) && (row.recoveryUsed ==> row.stage == Totp)
    && row.completed == Minted(log, flow)
  }

  /** The post named the flow, carried its cookie and its current form token, came
      before it expired and was not throttled. */
  predicate Posted(r: Request, flow: Id, at: Instant) {
    r.post.flow == flow && r.post.cookie == Some(flow) && r.post.csrf == r.was.csrf && r.was.expires > at
        && !r.throttled
  }

  /** The address and password given were those of this active user, of this tier. */
  predicate PasswordVerified(cfg: Config, e: Entry)
    requires e.PasswordOk?
  {
    var a := e.request.accounts;
    && Posted(e.request, e.flow, e.at)
    && e.email in a.emails && a.emails[e.email] == e.user && e.user in a.users && a.users[e.user].active
    && a.users[e.user].admin == e.admin && cfg.password(a.users[e.user].passwordHash, e.password)
  }

  /** The code given was an unused recovery code of this user. */
  predicate RecoveryVerified(e: Entry)
    requires e.RecoveryOk?
  {
    var a := e.request.accounts;
    Posted(e.request, e.flow, e.at) && e.code in a.recovery && a.recovery[e.code] == RecoveryRow(e.user, false)
  }

  /** The second factor was this user's own and verified, against the tables at hand;
      a passkey answered the challenge the flow held. */
  predicate FactorVerified(cfg: Config, e: Entry)
    requires e.Created?
  {
    var user := e.row.user;
    var a := e.request.accounts;
    match e.proof
    case OtpCode(code) => user in a.totp && a.totp[user].confirmed && cfg.otp(a.totp[user].secret, code, e.at)
    case EnrolledOtp(code) => user in a.totp && !a.totp[user].confirmed && cfg.otp(a.totp[user].secret, code, e.at)
    case Assertion(cred, challenge, response) =>
      cred in a.creds && a.creds[cred].user == user && e.request.was.challenge == Some(challenge)
      && cfg.assertion(cred, challenge, response)
  }

  /** The session starts now, at the address of the post, live and with the full
      absolute bound, for a user who is active, at the tier it has. */
  predicate Newborn(cfg: Config, e: Entry)
    requires e.Created?
  {
    var users := e.request.accounts.users;
    && Posted(e.request, e.flow, e.at) && e.row.ip == e.request.post.ip
    && e.row.user in users && users[e.row.user].active && e.row.adminTier == users[e.row.user].admin
    && e.row.issuedAt == e.row.lastSeen == e.at && e.row.absoluteExpiry == e.at + cfg.absoluteTtl * SECOND
    && !e.row.revoked && !e.row.stale
  }

  /** What a created session must have behind it in the log so far. */
  predicate Earned(cfg: Config, before: seq<Entry>, e: Entry)
    requires e.Created?
  {
    match Passed(before, e.flow)
    case None => false
    case Some(p) =>
      && e.row.user == p.user && FactorVerified(cfg, e) && Newborn(cfg, e)
      && Pwd in e.row.amr
      && (Webauthn in e.row.amr <==> p.admin) && (Otp in e.row.amr <==> !p.admin) && (e.proof.Assertion? <==> p.admin)
      && (Rc in e.row.amr <==> Recovered(before, e.flow))
  }

  /** What an entry must follow. */
  predicate Right(cfg: Config, before: seq<Entry>, e: Entry) {
    match e
    case PasswordOk(_, flow, _, _, _, _, _) => Passed(before, flow) == None && PasswordVerified(cfg, e)
    case RecoveryOk(_, flow, user, _, _) => Passed(before, flow) == Some(Pass(user, false)) && RecoveryVerified(e)
    case Created(_, flow, _, _, proof, _) =>
      Earned(cfg, before, e) && (Minted(before, flow).Some? ==> proof.EnrolledOtp?)
    case Resumed(_, flow, session) => Minted(before, flow) == Some(session)
  }

  ghost predicate AllRight(cfg: Config, log: seq<Entry>) {
    forall k :: 0 <= k < |log| ==> var before := log[..k]; Right(cfg, before, log[k])
  }

  /** A challenge proves one session; a flow that ended in enrolment says no more. */
  predicate Follows(first: Entry, second: Entry) {
    && (first.Created? && first.proof.EnrolledOtp? ==> second.flow != first.flow)
    && (first.Created? && second.Created? && first.proof.Assertion? && second.proof.Assertion? ==>
          first.proof.challenge != second.proof.challenge)
  }

  ghost predicate Ordered(log: seq<Entry>) {
    forall i, j :: 0 <= i < j < |log| ==> Follows(log[i], log[j])
  }

  predicate EntrySane(s: State, e: Entry) {
    e.flow < s.next && (e.Created? && e.proof.EnrolledOtp? ==> e.flow !in s.flows)
    && (e.Created? && e.proof.Assertion? ==>
          e.proof.challenge < s.next && forall f :: f in s.flows ==> s.flows[f].challenge != Some(e.proof.challenge))
  }

  ghost predicate FlowsRight(s: State) {
    && (forall f :: f in s.flows ==> f < s.next && RowRight(s.log, f, s.flows[f]))
    && (forall f :: f in s.flows && s.flows[f].challenge.Some? ==> s.flows[f].challenge.value < s.next)
    && (forall f, g :: f in s.flows && g in s.flows && f != g && s.flows[f].challenge.Some? ==>
        s.flows[f].challenge != s.flows[g].challenge)
  }

  ghost predicate LogSane(s: State) { forall k :: 0 <= k < |s.log| ==> EntrySane(s, s.log[k]) }

  ghost predicate Inv(cfg: Config, s: State) {
    FlowsRight(s) && LogSane(s) && AllRight(cfg, s.log) && Ordered(s.log)
  }

  // ------------------------------------------------------- steps that log nothing

  /** A flow's row apart from its form token and address. */
  predicate SameProgress(a: Flow, b: Flow) {
    a.stage == b.stage && a.user == b.user && a.recoveryUsed == b.recoveryUsed && a.completed == b.completed
  }

  /** A challenge is kept, cleared or fresh. */
  predicate ChallengeMoves(s: State, a: Flow, b: Flow) {
    b.challenge == a.challenge || b.challenge.None? || b.challenge == Some(s.next)
  }

  /** A flow nobody has got anywhere with. */
  predicate Untouched(row: Flow) {
    row.stage == Password && row.user == None && !row.recoveryUsed && row.completed == None && row.challenge == None
  }

  ghost predicate Quiet(s: State, t: State) {
    && t.log == s.log && t.next >= s.next
    && (forall f :: f in t.flows ==>
          if f in s.flows then SameProgress(s.flows[f], t.flows[f]) && ChallengeMoves(s, s.flows[f], t.flows[f])
          else s.next <= f < t.next && Untouched(t.flows[f]))
    && (forall f, g :: f in t.flows && g in t.flows && t.flows[f].challenge == t.flows[g].challenge == Some(s.next) ==>
          f == g && s.next < t.next)
    && (forall f :: f in t.flows && t.flows[f].challenge == Some(s.next) ==> s.next < t.next)
  }

  lemma {:induction false} NothingLogged(s: State, log: seq<Entry>, flow: Id)
    requires forall k :: 0 <= k < |log| ==> log[k].flow != flow
    ensures Passed(log, flow) == None && !Recovered(log, flow) && Minted(log, flow) == None
  {
    if log != [] { NothingLogged(s, log[..|log| - 1], flow); }
  }

  lemma QuietKeepsRows(cfg: Config, s: State, t: State)
    requires Inv(cfg, s) && Quiet(s, t)
    ensures forall f :: f in t.flows ==> f < t.next && RowRight(t.log, f, t.flows[f])
  {
    forall f | f in t.flows ensures f < t.next && RowRight(t.log, f, t.flows[f]) {
      if f !in s.flows {
        forall k | 0 <= k < |s.log| ensures s.log[k].flow != f { assert EntrySane(s, s.log[k]); }
        NothingLogged(s, s.log, f);
      } else {
        assert RowRight(s.log, f, s.flows[f]) && SameProgress(s.flows[f], t.flows[f]);
      }
    }
  }

  lemma QuietKeepsChallenges(cfg: Config, s: State, t: State)
    requires Inv(cfg, s) && Quiet(s, t)
    ensures forall f :: f in t.flows && t.flows[f].challenge.Some? ==> t.flows[f].challenge.value < t.next
    ensures forall f, g :: f in t.flows && g in t.flows && f != g && t.flows[f].challenge.Some? ==>
        t.flows[f].challenge != t.flows[g].challenge
    ensures LogSane(t)
  {
    forall k | 0 <= k < |t.log| ensures EntrySane(t, t.log[k]) {
      assert EntrySane(s, s.log[k]);
    }
  }

  lemma QuietKeepsInv(cfg: Config, s: State, t: State)
    requires Inv(cfg, s) && Quiet(s, t)
    ensures Inv(cfg, t)
  {
    QuietKeepsRows(cfg, s, t);
    QuietKeepsChallenges(cfg, s, t);
  }

  // --------------------------------------------------------- steps that log an entry

  lemma AllRightSnoc(cfg: Config, log: seq<Entry>, e: Entry)
    requires AllRight(cfg, log) && Right(cfg, log, e)
    ensures AllRight(cfg, log + [e])
  {
    var log' := log + [e];
    forall k | 0 <= k < |log'| ensures var before := log'[..k]; Right(cfg, before, log'[k]) {
      assert log'[..k] == log[..k];
      var before := log[..k];
      if k < |log| { assert Right(cfg, before, log[k]); } else { assert before == log; }
    }
  }

  lemma OrderedSnoc(log: seq<Entry>, e: Entry)
    requires Ordered(log) && forall k :: 0 <= k < |log| ==> Follows(log[k], e)
    ensures Ordered(log + [e])
  {
    var log' := log + [e];
    forall i, j | 0 <= i < j < |log'| ensures Follows(log'[i], log'[j]) {
      assert log'[i] == log[i];
      if j < |log| { assert Follows(log[i], log[j]); }
    }
  }

  /** One entry about a flow that was there, whose row is updated or deleted with it. */
  ghost predicate Speaks(s: State, t: State, e: Entry) {
    && t.log == s.log + [e] && t.next >= s.next && e.flow in s.flows && EntrySane(t, e)
    && (forall f :: f in t.flows ==> f in s.flows && (f != e.flow ==> t.flows[f] == s.flows[f]))
    && (e.flow in t.flows ==> RowRight(t.log, e.flow, t.flows[e.flow])
                              && (t.flows[e.flow].challenge == s.flows[e.flow].challenge
                                  || t.flows[e.flow].challenge.None?))
    && (e.Created? && e.proof.Assertion? ==> s.flows[e.flow].challenge == Some(e.proof.challenge))
  }

  lemma SpeakingKeepsRows(cfg: Config, s: State, t: State, e: Entry)
    requires Inv(cfg, s) && Speaks(s, t, e)
    ensures FlowsRight(t)
  {
    forall f | f in t.flows ensures f < t.next && RowRight(t.log, f, t.flows[f]) {
      assert RowRight(s.log, f, s.flows[f]);
      Snoc(s.log, e, f);
    }
  }

  lemma SpeakingKeepsInv(cfg: Config, s: State, t: State, e: Entry)
    requires Inv(cfg, s) && Speaks(s, t, e) && Right(cfg, s.log, e)
    ensures Inv(cfg, t)
  {
    SpeakingKeepsRows(cfg, s, t, e);
    AllRightSnoc(cfg, s.log, e);
    forall k | 0 <= k < |s.log| ensures Follows(s.log[k], e) && EntrySane(t, s.log[k]) {
      assert EntrySane(s, s.log[k]);
    }
    OrderedSnoc(s.log, e);
    forall k | 0 <= k < |t.log| ensures EntrySane(t, t.log[k]) {
      if k < |s.log| { assert t.log[k] == s.log[k]; }
    }
  }

  // ---------------------------------------------------------------- every handler

  /** One flow row redrawn without progress. */
  lemma RedrawnKeepsInv(cfg: Config, s: State, flow: Id, row: Flow, t: State)
    requires Inv(cfg, s) && flow in s.flows && t.log == s.log && t.next >= s.next && t.flows == s.flows[flow := row]
    requires SameProgress(s.flows[flow], row)
    requires row.challenge == s.flows[flow].challenge || row.challenge.None?
        || (row.challenge == Some(s.next) && t.next > s.next)
    ensures Inv(cfg, t)
  {
    assert forall f :: f in s.flows && s.flows[f].challenge.Some? ==> s.flows[f].challenge.value < s.next;
    QuietKeepsInv(cfg, s, t);
  }

  /** No flow row changed, some possibly gone. */
  lemma FewerFlowsKeepInv(cfg: Config, s: State, t: State)
    requires Inv(cfg, s) && t.log == s.log && t.next >= s.next
    requires forall f :: f in t.flows ==> f in s.flows && t.flows[f] == s.flows[f]
    ensures Inv(cfg, t)
  {
    assert forall f :: f in s.flows && s.flows[f].challenge.Some? ==> s.flows[f].challenge.value < s.next;
    QuietKeepsInv(cfg, s, t);
  }

  lemma NewFlowKeepsInv(cfg: Config, s: State, row: Flow, t: State)
    requires Inv(cfg, s) && t.log == s.log && t.next == s.next + 2 && t.flows == s.flows[s.next := row]
    requires Untouched(row)
    ensures Inv(cfg, t)
  {
    assert forall f :: f in s.flows && s.flows[f].challenge.Some? ==> s.flows[f].challenge.value < s.next;
    QuietKeepsInv(cfg, s, t);
  }

  lemma OnwardIsQuiet(cfg: Config, s: State, p: Post, t: State)
    requires Inv(cfg, s) && t == Onward(cfg, s, p)
    ensures Inv(cfg, t)
  {
    FewerFlowsKeepInv(cfg, s, t);
  }

  lemma ReissuedKeepsInv(cfg: Config, s: State, flow: Id, t: State)
    requires Inv(cfg, s) && flow in s.flows && t == Reissued(s, flow)
    ensures Inv(cfg, t)
  {
    RedrawnKeepsInv(cfg, s, flow, t.flows[flow], t);
  }

  lemma LoginFormKeepsInv(cfg: Config, s: State, flow: Option<Id>, p: Post, t: State)
    requires Inv(cfg, s) && t == LoginForm(cfg, s, flow, p)
    ensures Inv(cfg, t)
  {
    var checked := Onward(cfg, s, p);
    OnwardIsQuiet(cfg, s, p, checked);
    if t.next == s.next + 2 {
      var kept := checked.(flows := if flow.Some? && PinnedFlow(s, flow.value, p.ip) then s.flows - {flow.value}
          else s.flows);
      FewerFlowsKeepInv(cfg, checked, kept);
      NewFlowKeepsInv(cfg, kept, t.flows[s.next], t);
    } else if t.next == s.next + 1 {
      ReissuedKeepsInv(cfg, checked, flow.value, t);
    }
  }

  lemma ParkKeepsInv(cfg: Config, s: State, ip: string, t: State)
    requires Inv(cfg, s) && t == ParkFlow(cfg, s, ip)
    ensures Inv(cfg, t)
  {
    NewFlowKeepsInv(cfg, s, t.flows[s.next], t);
  }

  lemma LoginSubmitKeepsInv(cfg: Config, s: State, p: Post, email: string, password: string, throttled: bool, t: State)
    requires Inv(cfg, s) && t == LoginSubmit(cfg, s, p, email, password, throttled)
    ensures Inv(cfg, t)
  {
    if t != s {
      var e := t.log[|s.log|];
      assert RowRight(s.log, p.flow, s.flows[p.flow]);
      Snoc(s.log, e, p.flow);
      SpeakingKeepsInv(cfg, s, t, e);
    }
  }

  lemma ResumeKeepsInv(cfg: Config, s: State, flow: Id, ip: string, t: State)
    requires Inv(cfg, s) && flow in s.flows && s.flows[flow].completed.Some? && t == AfterResume(cfg, s, flow, ip)
    ensures Inv(cfg, t)
    ensures Inv(cfg, Logged(t, Resumed(s.now, flow, s.flows[flow].completed.value)))
  {
    FewerFlowsKeepInv(cfg, s, t);
    var e := Resumed(s.now, flow, s.flows[flow].completed.value);
    assert RowRight(s.log, flow, s.flows[flow]);
    Snoc(s.log, e, flow);
    SpeakingKeepsInv(cfg, t, Logged(t, e), e);
  }

  lemma FirstTotpKeepsInv(cfg: Config, s: State, p: Post, code: string, t: State)
    requires Inv(cfg, s) && Guarded(s, p, Totp) && s.flows[p.flow].completed.None?
    requires ActiveUser(s, s.flows[p.flow].user.value) && Confirmed(s, s.flows[p.flow].user.value)
    requires cfg.otp(s.a.totp[s.flows[p.flow].user.value].secret, code, s.now)
    requires t == Finalized(cfg, s, s.flows[p.flow].user.value, OtpAmr(s.flows[p.flow]), OtpCode(code),
        Found(s, p, false))
    ensures Inv(cfg, t)
  {
    var e := t.log[|s.log|];
    assert RowRight(s.log, p.flow, s.flows[p.flow]);
    Snoc(s.log, e, p.flow);
    assert Earned(cfg, s.log, e);
    SpeakingKeepsInv(cfg, s, t, e);
  }

  lemma TotpSubmitKeepsInv(cfg: Config, s: State, p: Post, code: string, throttled: bool, t: State)
    requires Inv(cfg, s) && t == TotpSubmit(cfg, s, p, code, throttled)
    ensures Inv(cfg, t)
  {
    if !Guarded(s, p, Totp) {
      OnwardIsQuiet(cfg, s, p, t);
    } else if s.flows[p.flow].completed.Some? {
      ResumeKeepsInv(cfg, s, p.flow, p.ip, AfterResume(cfg, s, p.flow, p.ip));
    } else if t.log != s.log {
      FirstTotpKeepsInv(cfg, s, p, code, t);
    } else if t != s {
      ReissuedKeepsInv(cfg, s, p.flow, t);
    }
  }

  lemma EnrollFormKeepsInv(cfg: Config, s: State, p: Post, t: State)
    requires Inv(cfg, s) && t == EnrollForm(s, p)
    ensures Inv(cfg, t)
  {
    if t != s { RedrawnKeepsInv(cfg, s, p.flow, t.flows[p.flow], t); }
  }

  lemma EnrollSubmitKeepsInv(cfg: Config, s: State, p: Post, code: string, throttled: bool, t: State)
    requires Inv(cfg, s) && t == EnrollSubmit(cfg, s, p, code, throttled)
    ensures Inv(cfg, t)
  {
    if !Guarded(s, p, Totp) {
      OnwardIsQuiet(cfg, s, p, t);
    } else if t.log != s.log {
      var e := t.log[|s.log|];
      assert RowRight(s.log, p.flow, s.flows[p.flow]);
      assert Earned(cfg, s.log, e);
      SpeakingKeepsInv(cfg, s, t, e);
    } else if t != s {
      ReissuedKeepsInv(cfg, s, p.flow, t);
    }
  }

  lemma RecoverySubmitKeepsInv(cfg: Config, s: State, p: Post, code: Id, throttled: bool, t: State)
    requires Inv(cfg, s) && t == RecoverySubmit(cfg, s, p, code, throttled)
    ensures Inv(cfg, t)
  {
    if !Guarded(s, p, Totp) {
      OnwardIsQuiet(cfg, s, p, t);
    } else if t.log != s.log {
      var e := t.log[|s.log|];
      assert RowRight(s.log, p.flow, s.flows[p.flow]);
      Snoc(s.log, e, p.flow);
      SpeakingKeepsInv(cfg, s, t, e);
    } else if t != s {
      ReissuedKeepsInv(cfg, s, p.flow, t);
    }
  }

  lemma OptionsKeepInv(cfg: Config, s: State, p: Post, enrolling: bool, t: State)
    requires Inv(cfg, s) && t == PasskeyOptions(s, p, enrolling)
    ensures Inv(cfg, t)
  {
    if t != s { RedrawnKeepsInv(cfg, s, p.flow, t.flows[p.flow], t); }
  }

  lemma AssertionKeepsInv(cfg: Config, s: State, p: Post, cred: Id, response: string, t: State)
    requires Inv(cfg, s) && Guarded(s, p, Passkey) && s.flows[p.flow].completed.None? && s.flows[p.flow].challenge.Some?
    requires ActiveUser(s, s.flows[p.flow].user.value)
    requires cred in s.a.creds && s.a.creds[cred].user == s.flows[p.flow].user.value
    requires cfg.assertion(cred, s.flows[p.flow].challenge.value, response)
    requires
      var f := s.flows[p.flow];
      t == Finalized(cfg, WithFlow(s, p.flow, f.(challenge := None)), f.user.value, {Pwd, Webauthn},
                     Assertion(cred, f.challenge.value, response), Found(s, p, false))
    ensures Inv(cfg, t)
  {
    var e := t.log[|s.log|];
    assert RowRight(s.log, p.flow, s.flows[p.flow]);
    Snoc(s.log, e, p.flow);
    assert Earned(cfg, s.log, e);
    SpeakingKeepsInv(cfg, s, t, e);
  }

  lemma PasskeyVerifyKeepsInv(cfg: Config, s: State, p: Post, cred: Id, response: string, throttled: bool, t: State)
    requires Inv(cfg, s) && t == PasskeyVerify(cfg, s, p, cred, response, throttled)
    ensures Inv(cfg, t)
  {
    if Guarded(s, p, Passkey) && ActiveUser(s, s.flows[p.flow].user.value) {
      if s.flows[p.flow].completed.Some? {
        ResumeKeepsInv(cfg, s, p.flow, p.ip, AfterResume(cfg, s, p.flow, p.ip));
      } else if t.log != s.log {
        AssertionKeepsInv(cfg, s, p, cred, response, t);
      } else if t != s {
        RedrawnKeepsInv(cfg, s, p.flow, t.flows[p.flow], t);
      }
    }
  }

  lemma PasskeyEnrollKeepsInv(cfg: Config, s: State, p: Post, response: string, t: State)
    requires Inv(cfg, s) && t == PasskeyEnroll(cfg, s, p, response)
    ensures Inv(cfg, t)
  {
    if t != s { RedrawnKeepsInv(cfg, s, p.flow, t.flows[p.flow], t); }
  }

  lemma ApplyKeepsInv(cfg: Config, s: State, action: Action, t: State)
    requires Inv(cfg, s) && t == Apply(cfg, s, action)
    ensures Inv(cfg, t)
  {
    match action
    case OpenLogin(flow, p) => LoginFormKeepsInv(cfg, s, flow, p, t);
    case Park(ip) => ParkKeepsInv(cfg, s, ip, t);
    case PostPassword(p, email, password, throttled) => LoginSubmitKeepsInv(cfg, s, p, email, password, throttled, t);
    case PostTotp(p, code, throttled) => TotpSubmitKeepsInv(cfg, s, p, code, throttled, t);
    case OpenEnroll(p) => EnrollFormKeepsInv(cfg, s, p, t);
    case PostEnroll(p, code, throttled) => EnrollSubmitKeepsInv(cfg, s, p, code, throttled, t);
    case PostRecovery(p, recovery, throttled) => RecoverySubmitKeepsInv(cfg, s, p, recovery, throttled, t);
    case PostOptions(p, enrolling) => OptionsKeepInv(cfg, s, p, enrolling, t);
    case PostAssertion(p, cred, response, throttled) => PasskeyVerifyKeepsInv(cfg, s, p, cred, response, throttled, t);
    case PostRegistration(p, response) => PasskeyEnrollKeepsInv(cfg, s, p, response, t);
    case OpenPage(page, p) => if t != s { ReissuedKeepsInv(cfg, s, p.flow, t); }
    case Elsewhere(_, _, _) => FewerFlowsKeepInv(cfg, s, t);
    case Forget(_) => FewerFlowsKeepInv(cfg, s, t);
  }

  lemma StepKeepsInv(cfg: Config, s: State, e: Event, t: State)
    requires Inv(cfg, s) && t == Step(cfg, s, e)
    ensures Inv(cfg, t)
  {
    hide Inv, Apply;
    var later := s.(now := s.now + e.dt);
    assert Inv(cfg, later) by { FewerFlowsKeepInv(cfg, s, later); }
    assert t == Apply(cfg, later, e.action);
    assert Inv(cfg, t) by { ApplyKeepsInv(cfg, later, e.action, t); }
  }

  lemma {:induction false} RunKeepsInv(cfg: Config, s: State, events: seq<Event>)
    requires Inv(cfg, s)
    ensures Inv(cfg, Run(cfg, s, events))
    decreases |events|
  {
    if events != [] {
      var t := Step(cfg, s, events[0]);
      StepKeepsInv(cfg, s, events[0], t);
      RunKeepsInv(cfg, t, events[1..]);
    }
  }

  // ------------------------------------------------------------ main results

  function Start(a: Accounts): State { State(0, 0, map[], a, map[], []) }

  lemma {:induction false} PassedMeans(log: seq<Entry>, flow: Id)
    ensures Passed(log, flow).Some? ==>
              exists i :: 0 <= i < |log| && log[i].PasswordOk? && log[i].flow == flow
                          && Passed(log, flow) == Some(Pass(log[i].user, log[i].admin))
    ensures Passed(log, flow).None? ==> forall i :: 0 <= i < |log| && log[i].PasswordOk? ==> log[i].flow != flow
  {
    if log != [] { PassedMeans(log[..|log| - 1], flow); }
  }

  lemma {:induction false} RecoveredMeans(log: seq<Entry>, flow: Id)
    ensures Recovered(log, flow) <==> exists i :: 0 <= i < |log| && log[i].RecoveryOk? && log[i].flow == flow
  {
    if log != [] { RecoveredMeans(log[..|log| - 1], flow); }
  }

  lemma {:induction false} MintedMeans(log: seq<Entry>, flow: Id)
    ensures Minted(log, flow).Some? ==>
              exists i :: 0 <= i < |log| && log[i].Created? && log[i].flow == flow
                  && Minted(log, flow) == Some(log[i].session)
    ensures Minted(log, flow).None? ==> forall i :: 0 <= i < |log| && log[i].Created? ==> log[i].flow != flow
  {
    if log != [] { MintedMeans(log[..|log| - 1], flow); }
  }

  /** The password step a session rests on. */
  predicate Grounds(password: Entry, session: Entry) {
    && password.PasswordOk? && session.Created?
    && password.flow == session.flow && password.user == session.row.user
    && (Webauthn in session.row.amr <==> password.admin) && (Otp in session.row.amr <==> !password.admin)
  }

  /** Every session created by login belongs to the user its flow fixed at an earlier
      password step, at which that user's password was verified, and that same, still
      active user's second factor was verified in the creating step: a passkey exactly
      when the tier at the password step was admin. Both posts carried the flow's cookie
      and form token in time. The methods the session records are those used, a recovery
      code exactly when one of the user's unused codes was consumed in the flow. */
  lemma SessionsAreEarned(cfg: Config, a: Accounts, events: seq<Event>, k: nat)
    requires k < |Run(cfg, Start(a), events).log| && Run(cfg, Start(a), events).log[k].Created?
    ensures
      var log := Run(cfg, Start(a), events).log;
      && (exists i :: 0 <= i < k && Grounds(log[i], log[k]) && PasswordVerified(cfg, log[i]))
      && FactorVerified(cfg, log[k]) && Newborn(cfg, log[k])
      && (log[k].proof.Assertion? <==> Webauthn in log[k].row.amr)
      && Pwd in log[k].row.amr
      && (Rc in log[k].row.amr <==>
            exists i :: 0 <= i < k && log[i].RecoveryOk? && log[i].flow == log[k].flow && RecoveryVerified(log[i]))
  {
    RunKeepsInv(cfg, Start(a), events);
    EarnedMeans(cfg, Run(cfg, Start(a), events).log, k);
  }

  lemma EarnedMeans(cfg: Config, log: seq<Entry>, k: nat)
    requires AllRight(cfg, log) && k < |log| && log[k].Created?
    ensures exists i :: 0 <= i < k && Grounds(log[i], log[k]) && PasswordVerified(cfg, log[i])
    ensures FactorVerified(cfg, log[k]) && Newborn(cfg, log[k])
    ensures (log[k].proof.Assertion? <==> Webauthn in log[k].row.amr) && Pwd in log[k].row.amr
    ensures Rc in log[k].row.amr <==>
            exists i :: 0 <= i < k && log[i].RecoveryOk? && log[i].flow == log[k].flow && RecoveryVerified(log[i])
  {
    var before := log[..k];
    assert Right(cfg, before, log[k]);
    PassedMeans(before, log[k].flow);
    RecoveredMeans(before, log[k].flow);
    var i :| 0 <= i < k && before[i].PasswordOk? && before[i].flow == log[k].flow
             && Passed(before, log[k].flow) == Some(Pass(before[i].user, before[i].admin));
    assert log[i] == before[i] && Grounds(log[i], log[k]);
    EntryRight(cfg, log, i);
    forall r | 0 <= r < k && log[r].RecoveryOk? ensures RecoveryVerified(log[r]) && before[r] == log[r] {
      EntryRight(cfg, log, r);
    }
  }

  lemma EntryRight(cfg: Config, log: seq<Entry>, k: nat)
    requires AllRight(cfg, log) && k < |log|
    ensures log[k].PasswordOk? ==> PasswordVerified(cfg, log[k])
    ensures log[k].RecoveryOk? ==> RecoveryVerified(log[k])
  {
    var before := log[..k];
    assert Right(cfg, before, log[k]);
  }

  /** A flow goes through the password step at most once. */
  lemma PasswordFixesTheUserOnce(cfg: Config, a: Accounts, events: seq<Event>, i: nat, j: nat)
    requires i < j < |Run(cfg, Start(a), events).log|
    requires Run(cfg, Start(a), events).log[i].PasswordOk? && Run(cfg, Start(a), events).log[j].PasswordOk?
    ensures Run(cfg, Start(a), events).log[i].flow != Run(cfg, Start(a), events).log[j].flow
  {
    RunKeepsInv(cfg, Start(a), events);
    var log := Run(cfg, Start(a), events).log;
    var before := log[..j];
    assert Right(cfg, before, log[j]);
    PassedMeans(before, log[j].flow);
    assert before[i] == log[i];
  }

  /** A passkey flow never mints a second session; in any flow a second one comes from
      enrolment after a plain code, and there is never a third. No passkey challenge
      proves two sessions. */
  lemma FlowsMintAtMostTwice(cfg: Config, a: Accounts, events: seq<Event>, i: nat, j: nat)
    requires i < j < |Run(cfg, Start(a), events).log|
    requires Run(cfg, Start(a), events).log[i].Created? && Run(cfg, Start(a), events).log[j].Created?
    ensures
      var log := Run(cfg, Start(a), events).log;
      && (log[i].flow == log[j].flow ==> log[i].proof.OtpCode? && log[j].proof.EnrolledOtp?)
      && (log[i].proof.Assertion? && log[j].proof.Assertion? ==> log[i].proof.challenge != log[j].proof.challenge)
  {
    RunKeepsInv(cfg, Start(a), events);
    var log := Run(cfg, Start(a), events).log;
    var before := log[..j];
    assert Right(cfg, before, log[j]) && Follows(log[i], log[j]);
    MintedMeans(before, log[j].flow);
    assert before[i] == log[i];
    if log[i].flow == log[j].flow {
      var first := log[..i];
      assert Right(cfg, first, log[i]);
      SamePass(cfg, log, i, j);
    }
  }

  /** Both sessions of a flow rest on its one password step. */
  lemma SamePass(cfg: Config, log: seq<Entry>, i: nat, j: nat)
    requires AllRight(cfg, log) && i < j < |log| && log[i].Created? && log[j].Created? && log[i].flow == log[j].flow
    ensures Passed(log[..i], log[i].flow) == Passed(log[..j], log[j].flow)
  {
    PassIsKept(cfg, log, log[i].flow, i, j);
    var before := log[..i];
    assert Right(cfg, before, log[i]);
  }

  lemma PassSnoc(cfg: Config, before: seq<Entry>, e: Entry, flow: Id)
    requires Right(cfg, before, e) && Passed(before, flow).Some?
    ensures Passed(before + [e], flow) == Passed(before, flow)
  {
    Snoc(before, e, flow);
  }

  lemma RightAt(cfg: Config, log: seq<Entry>, k: nat)
    requires AllRight(cfg, log) && k < |log|
    ensures Right(cfg, log[..k], log[k])
  {
    var before := log[..k];
    assert Right(cfg, before, log[k]);
  }

  lemma PassStep(cfg: Config, log: seq<Entry>, flow: Id, k: nat)
    requires AllRight(cfg, log) && k < |log| && Passed(log[..k], flow).Some?
    ensures Passed(log[..k + 1], flow) == Passed(log[..k], flow)
  {
    RightAt(cfg, log, k);
    assert log[..k + 1] == log[..k] + [log[k]];
    PassSnoc(cfg, log[..k], log[k], flow);
  }

  lemma {:induction false} PassIsKept(cfg: Config, log: seq<Entry>, flow: Id, i: nat, j: nat)
    requires AllRight(cfg, log) && i <= j <= |log| && Passed(log[..i], flow).Some?
    ensures Passed(log[..j], flow) == Passed(log[..i], flow)
    decreases j
  {
    if i < j {
      PassIsKept(cfg, log, flow, i, j - 1);
      PassStep(cfg, log, flow, j - 1);
    }
  }

  /** A resumed flow hands back a session it created itself. */
  lemma ResumedSessionsWereCreated(cfg: Config, a: Accounts, events: seq<Event>, k: nat)
    requires k < |Run(cfg, Start(a), events).log| && Run(cfg, Start(a), events).log[k].Resumed?
    ensures
      var log := Run(cfg, Start(a), events).log;
      exists i :: 0 <= i < k && log[i].Created? && log[i].flow == log[k].flow && log[i].session == log[k].session
  {
    RunKeepsInv(cfg, Start(a), events);
    var log := Run(cfg, Start(a), events).log;
    var before := log[..k];
    assert Right(cfg, before, log[k]);
    MintedMeans(before, log[k].flow);
    var i :| 0 <= i < |before| && before[i].Created? && before[i].flow == log[k].flow
        && Minted(before, log[k].flow) == Some(before[i].session);
    assert log[i] == before[i];
  }

  lemma OthersCreateNothing(cfg: Config, s: State, action: Action, t: State)
    requires t == Apply(cfg, s, action) && !action.PostTotp? && !action.PostEnroll? && !action.PostAssertion?
    ensures |t.log| == |s.log| + 1 ==> !t.log[|s.log|].Created?
  {
  }

  lemma CreatingStep(cfg: Config, s: State, action: Action, t: State)
    requires t == Apply(cfg, s, action) && |t.log| == |s.log| + 1 && t.log[|s.log|].Created?
    ensures t.log[|s.log|].flow in s.flows
    ensures s.flows[t.log[|s.log|].flow].completed.Some? ==> action.PostEnroll?
  {
    if !action.PostTotp? && !action.PostEnroll? && !action.PostAssertion? { OthersCreateNothing(cfg, s, action, t); }
  }

  lemma CreatingEvent(cfg: Config, s: State, e: Event, t: State)
    requires t == Step(cfg, s, e) && |t.log| == |s.log| + 1 && t.log[|s.log|].Created?
    ensures t.log[|s.log|].flow in s.flows
    ensures s.flows[t.log[|s.log|].flow].completed.Some? ==> e.action.PostEnroll?
  {
    hide Apply;
    var later := s.(now := s.now + e.dt);
    assert later.flows == s.flows && later.log == s.log;
    assert t == Apply(cfg, later, e.action);
    CreatingStep(cfg, later, e.action, t);
  }

  lemma CompletedMeans(cfg: Config, s: State, flow: Id)
    requires Inv(cfg, s) && flow in s.flows
    ensures s.flows[flow].completed.Some?
        <==> exists i :: 0 <= i < |s.log| && s.log[i].Created? && s.log[i].flow == flow
  {
    assert RowRight(s.log, flow, s.flows[flow]);
    MintedMeans(s.log, flow);
  }

  /** Exactly when a flow is used for a second session: a step that creates one is its
      flow's second if and only if the flow was already completed when it was posted,
      and then the step is the confirmation of an enrolment, the one handler that
      creates a session without looking at whether the flow was completed. */
  lemma SecondSessionIffCompleted(cfg: Config, a: Accounts, events: seq<Event>, e: Event)
    requires
      var s := Run(cfg, Start(a), events);
      var log := Step(cfg, s, e).log;
      |log| == |s.log| + 1 && log[|s.log|].Created?
    ensures
      var s := Run(cfg, Start(a), events);
      var flow := Step(cfg, s, e).log[|s.log|].flow;
      && flow in s.flows
      && (s.flows[flow].completed.Some? <==> exists i :: 0 <= i < |s.log| && s.log[i].Created? && s.log[i].flow == flow)
      && (s.flows[flow].completed.Some? ==> e.action.PostEnroll?)
  {
    RunKeepsInv(cfg, Start(a), events);
    var s := Run(cfg, Start(a), events);
    var t := Step(cfg, s, e);
    CreatingEvent(cfg, s, e, t);
    CompletedMeans(cfg, s, t.log[|s.log|].flow);
  }

  /** It can always happen: in a completed flow of an active, non-admin user, an unused
      recovery code followed by a fresh enrolment creates a further session. */
  lemma CompletedFlowCanMintAgain(cfg: Config, s: State, p: Post, recovery: Id, code: string)
    returns (events: seq<Event>)
    requires Guarded(s, p, Totp) && s.flows[p.flow].completed.Some?
    requires
      var user := s.flows[p.flow].user.value;
      ActiveUser(s, user) && !s.a.users[user].admin && RecoveryMatches(s, user, recovery)
    requires cfg.otp(s.next, code, s.now)
    ensures
      var log := Run(cfg, s, events).log;
      s.log <= log && |log| == |s.log| + 2
      && log[|s.log| + 1].Created? && log[|s.log| + 1].flow == p.flow && log[|s.log| + 1].session == s.next + 2
  {
    var e0, e1 := Event(0, PostRecovery(p, recovery, false)), Event(0, OpenEnroll(p));
    var e2 := Event(0, PostEnroll(p.(csrf := s.next + 1), code, false));
    events := [e0, e1, e2];
    var s1 := Step(cfg, s, e0);
    RecoveredStep(cfg, s, p, recovery, s1);
    var s2 := Step(cfg, s1, e1);
    PendingStep(cfg, s1, p, s2);
    var s3 := Step(cfg, s2, e2);
    EnrolledStep(cfg, s2, p.(csrf := s.next + 1), code, s3);
    assert events[1..] == [e1, e2] && [e1, e2][1..] == [e2] && [e2][1..] == [];
    assert Run(cfg, s2, [e2]) == Run(cfg, s3, []) == s3;
    assert Run(cfg, s1, [e1, e2]) == Run(cfg, s2, [e2]);
  }

  lemma RecoveredStep(cfg: Config, s: State, p: Post, recovery: Id, t: State)
    requires t == Apply(cfg, s, PostRecovery(p, recovery, false)) && Guarded(s, p, Totp)
    requires ActiveUser(s, s.flows[p.flow].user.value) && RecoveryMatches(s, s.flows[p.flow].user.value, recovery)
    ensures Guarded(t, p, Totp) && t.flows[p.flow].user == s.flows[p.flow].user && t.a.users == s.a.users
    ensures s.flows[p.flow].user.value !in t.a.totp && t.next == s.next && t.now == s.now && |t.log| == |s.log| + 1
        && s.log <= t.log
  {
  }

  lemma PendingStep(cfg: Config, s: State, p: Post, t: State)
    requires t == Apply(cfg, s, OpenEnroll(p)) && Guarded(s, p, Totp)
    requires
      var user := s.flows[p.flow].user.value;
      ActiveUser(s, user) && !s.a.users[user].admin && user !in s.a.totp
    ensures Guarded(t, p.(csrf := s.next + 1), Totp) && t.flows[p.flow].user == s.flows[p.flow].user
        && t.a.users == s.a.users
    ensures
      var user := s.flows[p.flow].user.value;
      user in t.a.totp && t.a.totp[user] == TotpRow(s.next, false)
    ensures t.next == s.next + 2 && t.now == s.now && t.log == s.log
  {
  }

  lemma EnrolledStep(cfg: Config, s: State, p: Post, code: string, t: State)
    requires t == Apply(cfg, s, PostEnroll(p, code, false)) && Guarded(s, p, Totp)
    requires
      var user := s.flows[p.flow].user.value;
      ActiveUser(s, user) && !s.a.users[user].admin && user in s.a.totp && !s.a.totp[user].confirmed
      && cfg.otp(s.a.totp[user].secret, code, s.now)
    ensures |t.log| == |s.log| + 1 && s.log <= t.log
    ensures t.log[|s.log|].Created? && t.log[|s.log|].flow == p.flow && t.log[|s.log|].session == s.next
  {
  }

  /** What the account tables and the checks must hold for the run below: an active user
      without the admin tier, with this password, a confirmed authenticator and an unused
      recovery code, whose codes pass, the second against the secret enrolled anew. */
  predicate Enrolled(
    cfg: Config, a: Accounts, email: string, password: string, first: string, recovery: Id, second: string)
  {
    cfg.flowTtl > 0 && email in a.emails
    && var user := a.emails[email];
       && user in a.users && a.users[user].active && !a.users[user].admin
       && cfg.password(a.users[user].passwordHash, password)
       && user in a.totp && a.totp[user].confirmed && cfg.otp(a.totp[user].secret, first, 0)
       && recovery in a.recovery && a.recovery[recovery] == RecoveryRow(user, false)
       && cfg.otp(4, second, 0)
  }

  lemma {:induction false} RunConcat(cfg: Config, s: State, xs: seq<Event>, ys: seq<Event>)
    ensures Run(cfg, s, xs + ys) == Run(cfg, Run(cfg, s, xs), ys)
    decreases |xs|
  {
    if xs == [] {
      assert xs + ys == ys;
    } else {
      assert (xs + ys)[1..] == xs[1..] + ys;
      RunConcat(cfg, Step(cfg, s, xs[0]), xs[1..], ys);
    }
  }

  lemma RunOne(cfg: Config, s: State, action: Action)
    ensures Run(cfg, s, [Event(0, action)]) == Apply(cfg, s, action)
  {
    assert [Event(0, action)][1..] == [];
    assert s.(now := s.now + 0) == s;
  }

  lemma FirstForm(cfg: Config, a: Accounts, p: Post, t: State)
    requires cfg.flowTtl > 0 && p.session == None && t == Apply(cfg, Start(a), OpenLogin(None, p))
    ensures t.now == 0 && t.next == 2 && t.log == [] && t.a == a && 0 in t.flows
    ensures t.flows[0] == Flow(1, p.ip, Password, None, false, None, None, 0, cfg.flowTtl * SECOND)
  {
  }

  lemma FirstPassword(cfg: Config, s: State, p: Post, email: string, password: string, t: State)
    requires t == Apply(cfg, s, PostPassword(p, email, password, false))
    requires PinnedFlow(s, p.flow, p.ip) && p.cookie == Some(p.flow) && s.flows[p.flow].csrf == p.csrf
    requires s.flows[p.flow].stage == Password && PasswordPasses(cfg, s, email, password)
    requires !s.a.users[s.a.emails[email]].admin
    ensures Guarded(t, p, Totp) && t.flows[p.flow].user == Some(s.a.emails[email])
    ensures t.flows[p.flow].completed == s.flows[p.flow].completed
    ensures t.now == s.now && t.next == s.next && t.a == s.a && |t.log| == |s.log| + 1
  {
  }

  lemma FirstCode(cfg: Config, s: State, p: Post, code: string, t: State)
    requires t == Apply(cfg, s, PostTotp(p, code, false)) && Guarded(s, p, Totp) && s.flows[p.flow].completed.None?
    requires
      var user := s.flows[p.flow].user.value;
      ActiveUser(s, user) && Confirmed(s, user) && cfg.otp(s.a.totp[user].secret, code, s.now)
    ensures Guarded(t, p, Totp) && t.flows[p.flow].completed.Some? && t.flows[p.flow].user == s.flows[p.flow].user
    ensures t.now == s.now && t.next == s.next + 2 && t.a == s.a && |t.log| == |s.log| + 1
    ensures t.log[|s.log|].Created? && t.log[|s.log|].flow == p.flow && t.log[|s.log|].session == s.next
  {
  }

  /** A completed flow is reached from the start by three requests. */
  lemma CompletedFlowIsReached(
    cfg: Config, a: Accounts, email: string, password: string, first: string, recovery: Id, second: string)
    returns (events: seq<Event>, p: Post)
    requires Enrolled(cfg, a, email, password, first, recovery, second)
    ensures
      var s := Run(cfg, Start(a), events);
      && Guarded(s, p, Totp) && s.flows[p.flow].completed.Some? && s.flows[p.flow].user == Some(a.emails[email])
      && s.a == a && s.now == 0 && s.next == 4 && |s.log| == 2
      && s.log[1].Created? && s.log[1].flow == p.flow && s.log[1].session == 2
  {
    p := Post(0, Some(0), 1, "", None);
    var open, pass, code := OpenLogin(None, p), PostPassword(p, email, password, false), PostTotp(p, first, false);
    var s1 := Apply(cfg, Start(a), open);
    FirstForm(cfg, a, p, s1);
    var s2 := Apply(cfg, s1, pass);
    FirstPassword(cfg, s1, p, email, password, s2);
    var s3 := Apply(cfg, s2, code);
    FirstCode(cfg, s2, p, first, s3);
    events := [Event(0, open)] + [Event(0, pass)] + [Event(0, code)];
    RunOne(cfg, Start(a), open);
    RunOne(cfg, s1, pass);
    RunOne(cfg, s2, code);
    RunConcat(cfg, Start(a), [Event(0, open)], [Event(0, pass)]);
    RunConcat(cfg, Start(a), [Event(0, open)] + [Event(0, pass)], [Event(0, code)]);
  }

  /** One flow does mint twice: for any settings and accounts with such a user, six
      requests from the start create two sessions in one flow. */
  lemma OneFlowMintsTwice(
    cfg: Config, a: Accounts, email: string, password: string, first: string, recovery: Id, second: string)
    returns (events: seq<Event>)
    requires Enrolled(cfg, a, email, password, first, recovery, second)
    ensures
      var log := Run(cfg, Start(a), events).log;
      && |log| == 4 && log[1].Created? && log[3].Created?
      && log[1].flow == log[3].flow && log[1].session != log[3].session
  {
    var start, p := CompletedFlowIsReached(cfg, a, email, password, first, recovery, second);
    var s := Run(cfg, Start(a), start);
    var more := CompletedFlowCanMintAgain(cfg, s, p, recovery, second);
    RunConcat(cfg, Start(a), start, more);
    events := start + more;
    assert Run(cfg, s, more).log[1] == s.log[1];
  }
}
