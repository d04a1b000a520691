/** What each post of the login pages leads to, on the stored rows, and exactly when
    (server/src/hyproxy/idp/web/routes.py, server/src/hyproxy/idp/web/webauthn_routes.py). */
module LoginOutcomes {
  import opened Prelude
  import opened Rows
  import opened LoginFlow
  import IdpSessions

  // ------------------------------------------------------------ what a post needs

  /** The post names an unexpired flow at this stage with a user, and carries the
      flow's cookie and form token. */
  predicate Held(s: State, p: Post, stage: Stage) {
    p.flow in s.flows
    && var f := s.flows[p.flow];
       s.now < f.expires && f.stage == stage && f.user.Some? && p.cookie == Some(p.flow) && p.csrf == f.csrf
  }

  /** And the user is still active. */
  predicate HeldByActive(s: State, p: Post, stage: Stage) {
    Held(s, p, stage) && s.flows[p.flow].user.value in s.a.users && s.a.users[s.flows[p.flow].user.value].active
  }

  /** The session a login starts. */
  function Started(cfg: Config, s: State, user: Id, ip: string, amr: set<Factor>): Session
    requires user in s.a.users
  {
    Session(user, s.next + 1, ip, s.a.users[user].admin, amr, s.now, s.now, s.now + cfg.absoluteTtl * SECOND,
            false, false)
  }

  /** A sign-in: one session more, live, of the flow's user; one entry about it; and the
      flow completed by it, its challenge as given. */
  ghost predicate SignsIn(cfg: Config, s: State, t: State, p: Post, proof: Proof, amr: set<Factor>,
      challenge: Option<Id>)
    requires HeldByActive(s, p, Totp) || HeldByActive(s, p, Passkey)
  {
    var user := s.flows[p.flow].user.value;
    var row := Started(cfg, s, user, p.ip, amr);
    && t.sessions == s.sessions[s.next := row] && t.next == s.next + 2 && t.a == s.a
    && t.log == s.log + [Created(s.now, p.flow, s.next, row, proof, Request(p, false, s.flows[p.flow], s.a))]
    && t.flows == s.flows[p.flow := s.flows[p.flow].(completed := Some(s.next), challenge := challenge)]
  }

  /** Nothing new: no session added and none of the log's kinds of entry but a resume. */
  predicate NoSession(s: State, t: State) {
    t.sessions.Keys == s.sessions.Keys && s.log <= t.log
    && forall k :: |s.log| <= k < |t.log| ==> !t.log[k].Created?
  }

  // ------------------------------------------------------------------- passkeys

  /** The user's own credential answers the challenge the flow holds. */
  predicate Answers(cfg: Config, s: State, p: Post, cred: Id, response: string)
    requires p.flow in s.flows
  {
    var f := s.flows[p.flow];
    f.challenge.Some? && cred in s.a.creds && Some(s.a.creds[cred].user) == f.user
    && cfg.assertion(cred, f.challenge.value, response)
  }

  predicate PasskeyEarns(cfg: Config, s: State, p: Post, cred: Id, response: string, throttled: bool) {
    HeldByActive(s, p, Passkey) && s.flows[p.flow].completed.None? && !throttled && Answers(cfg, s, p, cred, response)
  }

  /** A passkey signs in exactly when it answers the challenge of a held, uncompleted
      flow of an active user; the challenge is spent with it. */
  lemma PasskeySignsIn(cfg: Config, s: State, p: Post, cred: Id, response: string, throttled: bool)
    ensures
      var t := PasskeyVerify(cfg, s, p, cred, response, throttled);
      if PasskeyEarns(cfg, s, p, cred, response, throttled)
      then SignsIn(cfg, s, t, p, Assertion(cred, s.flows[p.flow].challenge.value, response), {Pwd, Webauthn}, None)
      else NoSession(s, t)
  {
  }

  /** A wrong answer on such a flow costs it its challenge and nothing else. */
  lemma WrongAnswersSpendTheChallenge(cfg: Config, s: State, p: Post, cred: Id, response: string)
    requires HeldByActive(s, p, Passkey) && s.flows[p.flow].completed.None? && !Answers(cfg, s, p, cred, response)
    ensures PasskeyVerify(cfg, s, p, cred, response, false)
         == s.(flows := s.flows[p.flow := s.flows[p.flow].(challenge := None)])
  {
  }

  /** A challenge is set exactly for a held flow of an active user who has a passkey, or
      at enrolment has none from before the flow. */
  lemma ChallengesAreSet(s: State, p: Post, enrolling: bool)
    ensures
      var may := HeldByActive(s, p, Passkey)
        && var f := s.flows[p.flow];
           if enrolling then forall c :: c in s.a.creds && Some(s.a.creds[c].user) == f.user ==>
               s.a.creds[c].createdAt >= f.createdAt
           else exists c :: c in s.a.creds && Some(s.a.creds[c].user) == f.user;
      PasskeyOptions(s, p, enrolling) ==
        if may then s.(flows := s.flows[p.flow := s.flows[p.flow].(challenge := Some(s.next))], next := s.next + 1)
        else s
  {
  }

  /** A passkey is added exactly when it answers the challenge of a held flow of an
      active user who has none from before the flow; it is that user's, from now. */
  lemma PasskeysAreAdded(cfg: Config, s: State, p: Post, response: string)
    ensures
      var t := PasskeyEnroll(cfg, s, p, response);
      var open := HeldByActive(s, p, Passkey)
        && forall c :: c in s.a.creds && Some(s.a.creds[c].user) == s.flows[p.flow].user ==>
             s.a.creds[c].createdAt >= s.flows[p.flow].createdAt;
      && t.flows == (if open then s.flows[p.flow := s.flows[p.flow].(challenge := None)] else s.flows)
      && t.a == (if open && s.flows[p.flow].challenge.Some?
                     && cfg.registration(s.flows[p.flow].challenge.value, response)
                 then s.a.(creds := s.a.creds[s.next := Credential(s.flows[p.flow].user.value, s.now)])
                 else s.a)
      && t.sessions == s.sessions && t.log == s.log
  {
  }

  // ----------------------------------------------------------------------- codes

  predicate CodeEarns(cfg: Config, s: State, p: Post, code: string, throttled: bool) {
    HeldByActive(s, p, Totp) && s.flows[p.flow].completed.None? && !throttled
    && var user := s.flows[p.flow].user.value;
       user in s.a.totp && s.a.totp[user].confirmed && cfg.otp(s.a.totp[user].secret, code, s.now)
  }

  /** A code signs in exactly when it is right for the confirmed secret of the active
      user of a held, uncompleted flow. */
  lemma CodeSignsIn(cfg: Config, s: State, p: Post, code: string, throttled: bool)
    ensures
      var t := TotpSubmit(cfg, s, p, code, throttled);
      if CodeEarns(cfg, s, p, code, throttled)
      then SignsIn(cfg, s, t, p, OtpCode(code),
                   if s.flows[p.flow].recoveryUsed then {Pwd, Rc, Otp} else {Pwd, Otp}, s.flows[p.flow].challenge)
      else NoSession(s, t)
  {
  }

  predicate EnrolmentEarns(cfg: Config, s: State, p: Post, code: string, throttled: bool) {
    HeldByActive(s, p, Totp) && !throttled
    && var user := s.flows[p.flow].user.value;
       !s.a.users[user].admin && user in s.a.totp && !s.a.totp[user].confirmed
       && cfg.otp(s.a.totp[user].secret, code, s.now)
  }

  /** A code confirms an enrolment exactly when it is right for the pending secret of an
      active standard user; then the secret is confirmed, the unused recovery codes give
      way to ten new ones, the flow is gone, and the user is signed in. */
  lemma EnrolmentSignsIn(cfg: Config, s: State, p: Post, code: string, throttled: bool)
    ensures
      var t := EnrollSubmit(cfg, s, p, code, throttled);
      if EnrolmentEarns(cfg, s, p, code, throttled)
      then
        var f := s.flows[p.flow];
        var user := f.user.value;
        var row := Started(cfg, s, user, p.ip, if f.recoveryUsed then {Pwd, Rc, Otp} else {Pwd, Otp});
        && t.sessions == s.sessions[s.next := row] && t.flows == s.flows - {p.flow}
        && t.log == s.log + [Created(s.now, p.flow, s.next, row, EnrolledOtp(code), Request(p, false, f, s.a))]
        && t.a.totp == s.a.totp[user := s.a.totp[user].(confirmed := true)]
        && t.a == s.a.(totp := t.a.totp, recovery := t.a.recovery)
      else NoSession(s, t) && t.a == s.a
  {
  }

  lemma {:induction false} BatchIs(user: Id, next: Id, size: nat)
    ensures forall k :: k in Batch(user, next, size) <==> next <= k < next + size
    ensures forall k :: k in Batch(user, next, size) ==> Batch(user, next, size)[k] == RecoveryRow(user, false)
  {
    if size > 0 { BatchIs(user, next, size - 1); }
  }

  /** Which recovery codes there are after it. */
  lemma EnrolmentRenewsTheCodes(cfg: Config, s: State, p: Post, code: string, k: Id)
    requires EnrolmentEarns(cfg, s, p, code, false)
    ensures
      var user := s.flows[p.flow].user.value;
      var t := EnrollSubmit(cfg, s, p, code, false);
      var added := s.next + 2 <= k < s.next + 12;
      && (k in t.a.recovery <==>
            added || (k in s.a.recovery && (s.a.recovery[k].user != user || s.a.recovery[k].used)))
      && (k in t.a.recovery ==> t.a.recovery[k] == if added then RecoveryRow(user, false) else s.a.recovery[k])
  {
    BatchIs(s.flows[p.flow].user.value, s.next + 2, 10);
  }

  /** A recovery code is accepted exactly when it is an unused one of the active user of
      a held flow; it is used up, the authenticator is dropped and the flow remembers. A
      wrong one changes the form token and nothing else. */
  lemma RecoveryIsAccepted(cfg: Config, s: State, p: Post, code: Id, throttled: bool)
    requires HeldByActive(s, p, Totp) && !throttled
    ensures
      var t := RecoverySubmit(cfg, s, p, code, throttled);
      var user := s.flows[p.flow].user.value;
      if code in s.a.recovery && s.a.recovery[code] == RecoveryRow(user, false)
      then
        && t.flows == s.flows[p.flow := s.flows[p.flow].(recoveryUsed := true)]
        && t.a == s.a.(totp := s.a.totp - {user}, recovery := s.a.recovery[code := RecoveryRow(user, true)])
        && t.log == s.log + [RecoveryOk(s.now, p.flow, user, code, Request(p, throttled, s.flows[p.flow], s.a))]
        && t.sessions == s.sessions
      else t == s.(flows := s.flows[p.flow := s.flows[p.flow].(csrf := s.next)], next := s.next + 1)
  {
  }

  /** A wrong code, at sign-in or at enrolment, costs the flow its form token and
      nothing else. */
  lemma WrongCodesCostTheToken(cfg: Config, s: State, p: Post, code: string)
    requires HeldByActive(s, p, Totp) && s.flows[p.flow].user.value in s.a.totp
    requires !cfg.otp(s.a.totp[s.flows[p.flow].user.value].secret, code, s.now)
    ensures
      var user := s.flows[p.flow].user.value;
      var t := s.(flows := s.flows[p.flow := s.flows[p.flow].(csrf := s.next)], next := s.next + 1);
      && (s.a.totp[user].confirmed && s.flows[p.flow].completed.None? ==> TotpSubmit(cfg, s, p, code, false) == t)
      && (!s.a.totp[user].confirmed && !s.a.users[user].admin ==> EnrollSubmit(cfg, s, p, code, false) == t)
  {
  }

  /** A post that is held back changes nothing; one that is not held by the flow does no
      more than look at the browser's own session. */
  lemma HeldBackPostsChangeNothing(cfg: Config, s: State, p: Post, code: string, recovery: Id)
    ensures HeldByActive(s, p, Totp) ==>
              (s.flows[p.flow].completed.None? ==> TotpSubmit(cfg, s, p, code, true) == s)
              && EnrollSubmit(cfg, s, p, code, true) == s && RecoverySubmit(cfg, s, p, recovery, true) == s
    ensures !Held(s, p, Totp) ==>
              var t := TotpSubmit(cfg, s, p, code, false);
              t == EnrollSubmit(cfg, s, p, code, false) == RecoverySubmit(cfg, s, p, recovery, false)
              && t == s.(sessions := t.sessions) && t.sessions.Keys == s.sessions.Keys
  {
  }

  // ------------------------------------------------------------------------ forms

  /** The browser's cookie names a session, proves it, and it stands. */
  predicate Known(cfg: Config, s: State, p: Post) {
    p.session.Some? && p.session.value.id in s.sessions
    && s.sessions[p.session.value.id].secret == p.session.value.secret
    && IdpSessions.Standing(cfg.sessions, s.sessions[p.session.value.id], s.now)
  }

  /** The login page: a known browser is sent on; a flow still waiting for its password
      gets a new form token; any other flow the browser may use is dropped, and a new
      one begins. */
  lemma LoginPageLeads(cfg: Config, s: State, flow: Option<Id>, p: Post)
    ensures
      var t := LoginForm(cfg, s, flow, p);
      var usable := flow.Some? && flow.value in s.flows && s.now < s.flows[flow.value].expires
        && (s.flows[flow.value].user.None? || s.flows[flow.value].ip == p.ip);
      var begun := Flow(s.next + 1, p.ip, Password, None, false, None, None, s.now, s.now + cfg.flowTtl * SECOND);
      && t.flows == (if Known(cfg, s, p) then s.flows
                     else if usable && s.flows[flow.value].stage == Password
                     then s.flows[flow.value := s.flows[flow.value].(csrf := s.next)]
                     else (if usable then s.flows - {flow.value} else s.flows)[s.next := begun])
      && t.a == s.a && t.log == s.log && t.sessions.Keys == s.sessions.Keys
  {
    if p.session.Some? && p.session.value.id in s.sessions {
      IdpSessions.CheckOnTheRow(cfg.sessions, s.sessions[p.session.value.id], p.ip, s.now, false);
    }
  }

  /** The flow that is parked for a browser without a session: it waits for a password,
      carries nobody and nothing, and lasts its lifetime. */
  lemma ParkedFlowsBegin(cfg: Config, s: State, ip: string)
    ensures
      var begun := Flow(s.next + 1, ip, Password, None, false, None, None, s.now, s.now + cfg.flowTtl * SECOND);
      ParkFlow(cfg, s, ip) == s.(flows := s.flows[s.next := begun], next := s.next + 2)
  {
  }

  /** A second-factor page renews the form token of a flow its cookie holds, exactly when
      there is something to ask for: the code page of a confirmed secret, the passkey page
      of a passkey, the passkey enrolment of none from before, recovery always. */
  lemma PagesRenewTheToken(s: State, page: FormPage, p: Post)
    requires p.flow in s.flows
    ensures
      var f := s.flows[p.flow];
      var held := s.now < f.expires && f.user.Some? && p.cookie == Some(p.flow)
        && f.stage == if page == TotpPage || page == RecoveryPage then Totp else Passkey;
      var asks := held
        && (page != RecoveryPage ==> f.user.value in s.a.users && s.a.users[f.user.value].active)
        && (page == TotpPage ==> f.user.value in s.a.totp && s.a.totp[f.user.value].confirmed)
        && (page == PasskeyPage ==> exists c :: c in s.a.creds && s.a.creds[c].user == f.user.value)
        && (page == PasskeyEnrollPage ==>
              forall c :: c in s.a.creds && s.a.creds[c].user == f.user.value ==>
                s.a.creds[c].createdAt >= f.createdAt);
      PageForm(s, page, p) ==
        if asks then s.(flows := s.flows[p.flow := f.(csrf := s.next)], next := s.next + 1) else s
  {
  }

  /** The enrolment page, for the active standard user of a held flow without a
      confirmed secret: a pending secret unless there is one, and a new form token. */
  lemma EnrolmentPageLeads(s: State, p: Post)
    ensures
      var held := HeldByActive(s, p.(csrf := if p.flow in s.flows then s.flows[p.flow].csrf else 0), Totp)
        && var user := s.flows[p.flow].user.value;
           !s.a.users[user].admin && (user in s.a.totp ==> !s.a.totp[user].confirmed);
      EnrollForm(s, p) ==
        if !held then s
        else if s.flows[p.flow].user.value in s.a.totp
        then s.(flows := s.flows[p.flow := s.flows[p.flow].(csrf := s.next)], next := s.next + 1)
        else s.(a := s.a.(totp := s.a.totp[s.flows[p.flow].user.value := TotpRow(s.next, false)]),
                flows := s.flows[p.flow := s.flows[p.flow].(csrf := s.next + 1)], next := s.next + 2)
  {
  }

  // -------------------------------------------------------------------- passwords

  /** The post names an unexpired password-stage flow, from its address once it carries
      a user, with the flow's cookie and form token. */
  predicate AtTheDoor(s: State, p: Post) {
    p.flow in s.flows
    && var f := s.flows[p.flow];
       s.now < f.expires && f.stage == Password && (f.user.Some? ==> f.ip == p.ip)
       && p.cookie == Some(p.flow) && p.csrf == f.csrf
  }

  /** A password is accepted exactly when it is that of the active account with this
      address; the flow then carries the user and waits for a passkey from an
      administrator and a code from anyone else, at the poster's address. */
  lemma PasswordIsAccepted(cfg: Config, s: State, p: Post, email: string, password: string, throttled: bool)
    ensures
      var t := LoginSubmit(cfg, s, p, email, password, throttled);
      if AtTheDoor(s, p) && !throttled && email in s.a.emails && s.a.emails[email] in s.a.users
         && s.a.users[s.a.emails[email]].active
         && cfg.password(s.a.users[s.a.emails[email]].passwordHash, password)
      then
        var user := s.a.emails[email];
        var second := if s.a.users[user].admin then Passkey else Totp;
        && t.flows == s.flows[p.flow := s.flows[p.flow].(user := Some(user), stage := second, ip := p.ip)]
        && t.log == s.log + [PasswordOk(s.now, p.flow, user, s.a.users[user].admin, email, password,
                                        Request(p, throttled, s.flows[p.flow], s.a))]
        && t.sessions == s.sessions && t.a == s.a && t.next == s.next
      else t == s
  {
  }

  // ---------------------------------------------------------------------- replays

  /** A second post to a completed flow hands back its session, under a new cookie,
      exactly when that session still stands and the post comes from its address. */
  lemma CompletedFlowsResume(cfg: Config, s: State, p: Post, code: string, throttled: bool)
    requires HeldByActive(s, p, Totp) && s.flows[p.flow].completed.Some?
    ensures
      var t := TotpSubmit(cfg, s, p, code, throttled);
      var id := s.flows[p.flow].completed.value;
      var good := id in s.sessions && IdpSessions.Standing(cfg.sessions, s.sessions[id], s.now)
        && s.sessions[id].ip == p.ip;
      && t.log == (if good then s.log + [Resumed(s.now, p.flow, id)] else s.log)
      && (good ==> id in t.sessions && t.sessions[id].secret == s.next && !t.sessions[id].revoked)
      && t.flows == s.flows && t.a == s.a && t.sessions.Keys == s.sessions.Keys
  {
    var id := s.flows[p.flow].completed.value;
    if id in s.sessions { IdpSessions.CheckOnTheRow(cfg.sessions, s.sessions[id], p.ip, s.now, true); }
  }

  lemma CompletedPasskeyFlowsResume(cfg: Config, s: State, p: Post, cred: Id, response: string, throttled: bool)
    requires HeldByActive(s, p, Passkey) && s.flows[p.flow].completed.Some?
    ensures
      var t := PasskeyVerify(cfg, s, p, cred, response, throttled);
      var id := s.flows[p.flow].completed.value;
      var good := id in s.sessions && IdpSessions.Standing(cfg.sessions, s.sessions[id], s.now)
        && s.sessions[id].ip == p.ip;
      && t.log == (if good then s.log + [Resumed(s.now, p.flow, id)] else s.log)
      && (good ==> id in t.sessions && t.sessions[id].secret == s.next && !t.sessions[id].revoked)
      && t.flows == s.flows && t.a == s.a && t.sessions.Keys == s.sessions.Keys
  {
    var id := s.flows[p.flow].completed.value;
    if id in s.sessions { IdpSessions.CheckOnTheRow(cfg.sessions, s.sessions[id], p.ip, s.now, true); }
  }

  // ------------------------------------------------------------------ all of them

  /** The posts that sign in, in full. */
  predicate Earns(cfg: Config, s: State, action: Action) {
    match action
    case PostTotp(p, code, throttled) => CodeEarns(cfg, s, p, code, throttled)
    case PostEnroll(p, code, throttled) => EnrolmentEarns(cfg, s, p, code, throttled)
    case PostAssertion(p, cred, response, throttled) => PasskeyEarns(cfg, s, p, cred, response, throttled)
    case _ => false
  }

  predicate Creates(s: State, t: State) { |t.log| == |s.log| + 1 && s.log <= t.log && t.log[|s.log|].Created? }

  lemma ActionCreates(cfg: Config, s: State, action: Action)
    ensures Creates(s, Apply(cfg, s, action)) <==> Earns(cfg, s, action)
  {
    match action
    case PostTotp(p, code, throttled) => CodeSignsIn(cfg, s, p, code, throttled);
    case PostEnroll(p, code, throttled) => EnrolmentSignsIn(cfg, s, p, code, throttled);
    case PostAssertion(p, cred, response, throttled) => PasskeySignsIn(cfg, s, p, cred, response, throttled);
    case _ => OthersCreateNothing(cfg, s, action, Apply(cfg, s, action));
  }

  /** In every state a step creates a session if and only if it posts a second factor
      that earns one. */
  lemma SessionsExactlyWhenEarned(cfg: Config, s: State, e: Event)
    ensures Creates(s, Step(cfg, s, e)) <==> Earns(cfg, s.(now := s.now + e.dt), e.action)
  {
    hide Apply, Earns;
    var later := s.(now := s.now + e.dt);
    assert Step(cfg, s, e) == Apply(cfg, later, e.action) && later.log == s.log;
    ActionCreates(cfg, later, e.action);
  }
}
