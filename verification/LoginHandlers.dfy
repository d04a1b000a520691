/** The login handlers as the service runs them, row by row
    (server/src/hyproxy/idp/web/routes.py, server/src/hyproxy/idp/web/webauthn_routes.py). */
module LoginHandlers {
  import opened Prelude
  import opened Rows
  import opened LoginFlow
  import IdpSessions

  class Server {
    var flows: map<Id, Flow>
    var a: Accounts
    var next: Id
    var log: seq<Entry>
    const sessions: IdpSessions.SessionTable
    const cfg: Config

    ghost predicate Valid()
      reads this, sessions
    {
      sessions.cfg == cfg.sessions
    }

    ghost function Snapshot(now: Instant): State
      reads this, sessions
    {
      State(now, next, flows, a, sessions.rows, log)
    }

    constructor (cfg: Config, accounts: Accounts)
      ensures Valid() && Snapshot(0) == Start(accounts) && fresh(sessions) && this.cfg == cfg
    {
      this.cfg := cfg;
      flows, a, next, log := map[], accounts, 0, [];
      sessions := new IdpSessions.SessionTable(cfg.sessions);
    }

    /** `get_stage_flow`. */
    method GetStageFlow(p: Post, stage: Stage, now: Instant) returns (row: Option<Flow>)
      ensures row.Some? <==> StageFlow(Snapshot(now), p, stage)
      ensures row.Some? ==> row.value == flows[p.flow]
    {
      if p.flow !in flows || flows[p.flow].expires <= now { return None; }
      if flows[p.flow].stage != stage || flows[p.flow].user.None? { return None; }
      if p.cookie != Some(p.flow) { return None; }
      return Some(flows[p.flow]);
    }

    method RotateCsrf(flow: Id, now: Instant)
      requires flow in flows
      modifies this
      ensures Snapshot(now) == Reissued(old(Snapshot(now)), flow)
    {
      flows := flows[flow := flows[flow].(csrf := next)];
      next := next + 1;
    }

    method RedirectIfAuthenticated(p: Post, now: Instant) returns (redirected: bool)
      requires Valid()
      modifies sessions
      ensures redirected == Authenticated(cfg, old(Snapshot(now)), p)
      ensures Snapshot(now) == Onward(cfg, old(Snapshot(now)), p)
    {
      if p.session.None? { return false; }
      var live := sessions.FromCookie(p.session.value, p.ip, now);
      return live.Some?;
    }

    /** `create_flow`, also on behalf of `/oidc/authorize`. */
    method CreateFlow(ip: string, now: Instant)
      modifies this
      ensures Snapshot(now) == ParkFlow(cfg, old(Snapshot(now)), ip)
    {
      flows := flows[next := Flow(next + 1, ip, Password, None, false, None, None, now, now + cfg.flowTtl * SECOND)];
      next := next + 2;
    }

    method LoginPage(flow: Option<Id>, p: Post, now: Instant)
      requires Valid()
      modifies this, sessions
      ensures Valid() && Snapshot(now) == LoginForm(cfg, old(Snapshot(now)), flow, p)
    {
      var redirected := RedirectIfAuthenticated(p, now);
      if redirected { return; }
      if flow.Some? && flow.value in flows && flows[flow.value].expires > now {
        if flows[flow.value].user.None? || flows[flow.value].ip == p.ip {
          if flows[flow.value].stage == Password {
            RotateCsrf(flow.value, now);
            return;
          }
          flows := flows - {flow.value};
        }
      }
      CreateFlow(p.ip, now);
    }

    method EnrollPage(p: Post, now: Instant)
      requires Valid()
      modifies this
      ensures Valid() && Snapshot(now) == EnrollForm(old(Snapshot(now)), p)
    {
      var row := GetStageFlow(p, Totp, now);
      if row.None? { return; }
      var user := row.value.user.value;
      if user !in a.users || !a.users[user].active || a.users[user].admin { return; }
      if user in a.totp && a.totp[user].confirmed { return; }
      if user !in a.totp {
        a := a.(totp := a.totp[user := TotpRow(next, false)]);
        next := next + 1;
      }
      RotateCsrf(p.flow, now);
    }

    /** `totp_form`, `recovery_form`, `webauthn_page` and `enroll_webauthn_page`. */
    method SecondFactorPage(page: FormPage, p: Post, now: Instant)
      requires Valid()
      modifies this
      ensures Valid() && Snapshot(now) == PageForm(old(Snapshot(now)), page, p)
    {
      var row := GetStageFlow(p, if page.TotpPage? || page.RecoveryPage? then Totp else Passkey, now);
      if row.None? { return; }
      var user := row.value.user.value;
      if !page.RecoveryPage? && (user !in a.users || !a.users[user].active) { return; }
      match page {
        case RecoveryPage =>
        case TotpPage => if user !in a.totp || !a.totp[user].confirmed { return; }
        case PasskeyPage => if forall c :: c in a.creds ==> a.creds[c].user != user { return; }
        case PasskeyEnrollPage =>
          if exists c :: c in a.creds && a.creds[c].user == user && a.creds[c].createdAt < row.value.createdAt {
            return;
          }
      }
      RotateCsrf(p.flow, now);
    }

    method CreateSession(user: Id, ip: string, amr: set<Factor>, now: Instant) returns (id: Id)
      requires user in a.users
      modifies this`next, sessions
      ensures id == old(next) && next == old(next) + 2
      ensures sessions.rows == old(sessions.rows)[id := NewSession(cfg, old(Snapshot(now)), user, ip, amr)]
    {
      id := next;
      sessions.rows := sessions.rows[id := Session(user, next + 1, ip, a.users[user].admin, amr, now, now,
                                                   now + cfg.absoluteTtl * SECOND, false, false)];
      next := next + 2;
    }

    method FinalizeLogin(user: Id, amr: set<Factor>, proof: Proof, r: Request, now: Instant)
      requires r.post.flow in flows && user in a.users
      modifies this, sessions
      ensures Snapshot(now) == Finalized(cfg, old(Snapshot(now)), user, amr, proof, r)
    {
      var flow := r.post.flow;
      var session := CreateSession(user, r.post.ip, amr, now);
      flows := flows[flow := flows[flow].(completed := Some(session))];
      log := log + [Created(now, flow, session, sessions.rows[session], proof, r)];
    }

    method ResumeCompletedLogin(flow: Id, ip: string, now: Instant) returns (resumed: bool)
      requires Valid() && flow in flows && flows[flow].completed.Some?
      modifies this`next, sessions
      ensures resumed == Resumable(cfg, old(Snapshot(now)), flow, ip)
      ensures Snapshot(now) == AfterResume(cfg, old(Snapshot(now)), flow, ip)
    {
      var session := flows[flow].completed.value;
      if session !in sessions.rows { return false; }
      var live := sessions.CheckLiveness(session, ip, now, true);
      if !live { return false; }
      sessions.ReissueCookie(session, next);
      next := next + 1;
      return true;
    }

    method PasswordStep(p: Post, email: string, password: string, throttled: bool, now: Instant)
      requires Valid()
      modifies this
      ensures Valid() && Snapshot(now) == LoginSubmit(cfg, old(Snapshot(now)), p, email, password, throttled)
    {
      if p.flow !in flows || flows[p.flow].expires <= now { return; }
      if flows[p.flow].user.Some? && flows[p.flow].ip != p.ip { return; }
      if p.cookie != Some(p.flow) { return; }
      if flows[p.flow].csrf != p.csrf || flows[p.flow].stage != Password { return; }
      if throttled { return; }
      if email !in a.emails { return; }
      var user := a.emails[email];
      if user !in a.users || !a.users[user].active { return; }
      if !cfg.password(a.users[user].passwordHash, password) { return; }
      var r := Request(p, throttled, flows[p.flow], a);
      log := log + [PasswordOk(now, p.flow, user, a.users[user].admin, email, password, r)];
      var second := if a.users[user].admin then Passkey else Totp;
      flows := flows[p.flow := flows[p.flow].(user := Some(user), stage := second, ip := p.ip)];
    }

    method TotpStep(p: Post, code: string, throttled: bool, now: Instant)
      requires Valid()
      modifies this, sessions
      ensures Valid() && Snapshot(now) == TotpSubmit(cfg, old(Snapshot(now)), p, code, throttled)
    {
      var row := GetStageFlow(p, Totp, now);
      if row.None? || row.value.csrf != p.csrf {
        var redirected := RedirectIfAuthenticated(p, now);
        return;
      }
      var user := row.value.user.value;
      var active := user in a.users && a.users[user].active;
      if row.value.completed.Some? {
        var resumed := ResumeCompletedLogin(p.flow, p.ip, now);
        if !resumed || !active { return; }
        log := log + [Resumed(now, p.flow, row.value.completed.value)];
        return;
      }
      if !active { return; }
      if throttled { return; }
      if user !in a.totp || !a.totp[user].confirmed { return; }
      if !cfg.otp(a.totp[user].secret, code, now) {
        RotateCsrf(p.flow, now);
        return;
      }
      var amr := if row.value.recoveryUsed then {Pwd, Rc, Otp} else {Pwd, Otp};
      FinalizeLogin(user, amr, OtpCode(code), Request(p, throttled, row.value, a), now);
    }

    method EnrollStep(p: Post, code: string, throttled: bool, now: Instant)
      requires Valid()
      modifies this, sessions
      ensures Valid() && Snapshot(now) == EnrollSubmit(cfg, old(Snapshot(now)), p, code, throttled)
    {
      var row := GetStageFlow(p, Totp, now);
      if row.None? || row.value.csrf != p.csrf {
        var redirected := RedirectIfAuthenticated(p, now);
        return;
      }
      var user := row.value.user.value;
      if user !in a.users || !a.users[user].active || a.users[user].admin { return; }
      if throttled { return; }
      if user !in a.totp || a.totp[user].confirmed { return; }
      if !cfg.otp(a.totp[user].secret, code, now) {
        RotateCsrf(p.flow, now);
        return;
      }
      var amr := if row.value.recoveryUsed then {Pwd, Rc, Otp} else {Pwd, Otp};
      var r := Request(p, throttled, row.value, a);
      var session := CreateSession(user, p.ip, amr, now);
      log := log + [Created(now, p.flow, session, sessions.rows[session], EnrolledOtp(code), r)];
      a := a.(totp := a.totp[user := a.totp[user].(confirmed := true)], recovery := FreshBatch(a.recovery, user, next));
      next := next + 10;
      flows := flows - {p.flow};
    }

    method RecoveryStep(p: Post, code: Id, throttled: bool, now: Instant)
      requires Valid()
      modifies this, sessions
      ensures Valid() && Snapshot(now) == RecoverySubmit(cfg, old(Snapshot(now)), p, code, throttled)
    {
      var row := GetStageFlow(p, Totp, now);
      if row.None? || row.value.csrf != p.csrf {
        var redirected := RedirectIfAuthenticated(p, now);
        return;
      }
      var user := row.value.user.value;
      if user !in a.users || !a.users[user].active { return; }
      if throttled { return; }
      if code !in a.recovery || a.recovery[code].user != user || a.recovery[code].used {
        RotateCsrf(p.flow, now);
        return;
      }
      var r := Request(p, throttled, row.value, a);
      a := a.(recovery := a.recovery[code := a.recovery[code].(used := true)]);
      log := log + [RecoveryOk(now, p.flow, user, code, r)];
      a := a.(totp := a.totp - {user});
      flows := flows[p.flow := flows[p.flow].(recoveryUsed := true)];
    }

    method OptionsStep(p: Post, enrolling: bool, now: Instant)
      requires Valid()
      modifies this
      ensures Valid() && Snapshot(now) == PasskeyOptions(old(Snapshot(now)), p, enrolling)
    {
      var row := GetStageFlow(p, Passkey, now);
      if row.None? || row.value.csrf != p.csrf { return; }
      var user := row.value.user.value;
      if user !in a.users || !a.users[user].active { return; }
      if enrolling {
        if exists c :: c in a.creds && a.creds[c].user == user && a.creds[c].createdAt < row.value.createdAt { return; }
      } else {
        if forall c :: c in a.creds ==> a.creds[c].user != user { return; }
      }
      flows := flows[p.flow := flows[p.flow].(challenge := Some(next))];
      next := next + 1;
    }

    method AssertionStep(p: Post, cred: Id, response: string, throttled: bool, now: Instant)
      requires Valid()
      modifies this, sessions
      ensures Valid() && Snapshot(now) == PasskeyVerify(cfg, old(Snapshot(now)), p, cred, response, throttled)
    {
      var row := GetStageFlow(p, Passkey, now);
      if row.None? || row.value.csrf != p.csrf { return; }
      var user := row.value.user.value;
      if user !in a.users || !a.users[user].active { return; }
      if row.value.completed.Some? {
        var resumed := ResumeCompletedLogin(p.flow, p.ip, now);
        if resumed { log := log + [Resumed(now, p.flow, row.value.completed.value)]; }
        return;
      }
      if throttled { return; }
      var challenge := row.value.challenge;
      flows := flows[p.flow := row.value.(challenge := None)];
      if challenge.None? { return; }
      if cred !in a.creds || a.creds[cred].user != user { return; }
      if !cfg.assertion(cred, challenge.value, response) { return; }
      FinalizeLogin(user, {Pwd, Webauthn}, Assertion(cred, challenge.value, response),
          Request(p, throttled, row.value, a), now);
    }

    method RegistrationStep(p: Post, response: string, now: Instant)
      requires Valid()
      modifies this
      ensures Valid() && Snapshot(now) == PasskeyEnroll(cfg, old(Snapshot(now)), p, response)
    {
      var row := GetStageFlow(p, Passkey, now);
      if row.None? || row.value.csrf != p.csrf { return; }
      var user := row.value.user.value;
      if user !in a.users || !a.users[user].active { return; }
      if exists c :: c in a.creds && a.creds[c].user == user && a.creds[c].createdAt < row.value.createdAt { return; }
      var challenge := row.value.challenge;
      flows := flows[p.flow := row.value.(challenge := None)];
      if challenge.None? { return; }
      if !cfg.registration(challenge.value, response) { return; }
      a := a.(creds := a.creds[next := Credential(user, now)]);
      next := next + 1;
    }
  }
}
