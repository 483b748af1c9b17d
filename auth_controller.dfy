/**
 * Sign-up with e-mail verification, log-in checks, and the rate-limited
 * resend of the verification e-mail. Accounts that finished verification
 * and accounts still pending are two collections; each sent e-mail is
 * recorded in `outbox`. Time is a millisecond count passed in by the
 * caller; password hashing and random tokens are parameters.
 */
module AuthController {
  import opened Common
  import opened Domain

  const DayMs := 24 * 60 * 60 * 1000
  const SignupCooldownMs := 30 * 1000
  const SignupWindowMs := 60 * 60 * 1000
  const SignupResendLimit := 5

  const EmailAndPasswordRequired := "Email and password are required"
  const AlreadyRegistered := "This email is already registered. Please login instead."
  const PendingWait := "This email is already pending verification. Please wait before trying again."
  const ResendLimitReached := "You have reached the resend limit. Please try signing up again later."
  const NoSuchEmail := "User with the given email does not exist"
  const OtherProvider := "This account already exists. Please use the same login method."
  const NoPassword := "Invalid login method. Please use the correct sign-in method."
  const IncorrectPassword := "Incorrect password"
  const EmailRequired := "Email required"
  const NotPending := "Email not found or already verified."
  const ServerError := "Server error"

  /** A verified account, as far as logging in looks at it. */
  datatype Account = Account(email: string, authProvider: string, hasPassword: bool)

  /** A sign-up waiting for its e-mail to be verified. */
  datatype PendingUser = PendingUser(
    email: string,
    token: string,
    tokenExpires: int,
    resendAttempts: int,
    lastResendAt: Option<int>,
    resendWindowStart: Option<int>,
    firstSignupAt: Option<int>)

  /** A verification e-mail: recipient and token. */
  datatype Mail = Mail(to: string, token: string)

  /** The resend limits: `Number(env) || default`, where an unset, zero or unparsable value is given as 0. */
  datatype ResendConfig = ResendConfig(cooldownMs: int, windowMs: int, maxPerWindow: int)

  function ConfigFrom(cooldownSeconds: int, windowHours: int, maxPerWindow: int): (c: ResendConfig)
    ensures cooldownSeconds == 0 ==> c.cooldownMs == 60000
    ensures windowHours == 0 ==> c.windowMs == 3600000
    ensures maxPerWindow == 0 ==> c.maxPerWindow == 5
    ensures cooldownSeconds != 0 ==> c.cooldownMs == cooldownSeconds * 1000
    ensures windowHours != 0 ==> c.windowMs == windowHours * 3600000
    ensures maxPerWindow != 0 ==> c.maxPerWindow == maxPerWindow
  {
    ResendConfig(
      (if cooldownSeconds == 0 then 60 else cooldownSeconds) * 1000,
      (if windowHours == 0 then 1 else windowHours) * 60 * 60 * 1000,
      if maxPerWindow == 0 then 5 else maxPerWindow)
  }

  /** What one resend request decides for a pending sign-up. */
  datatype ResendDecision =
    | CoolingDown(retryAfterMs: int)
    | TooManyResends
    | Resend(updated: PendingUser, attemptsRemaining: int)

  function Max0(x: int): int { if x < 0 then 0 else x }

  /** `resendVerification` on a found pending sign-up: cooldown, then window reset, then the attempt cap. */
  function ResendStep(p: PendingUser, now: int, cfg: ResendConfig, token: string): ResendDecision {
    if p.lastResendAt.Some? && now - p.lastResendAt.value < cfg.cooldownMs then
      CoolingDown(cfg.cooldownMs - (now - p.lastResendAt.value))
    else
      var p1 :=
        if p.resendWindowStart.None? || now - p.resendWindowStart.value > cfg.windowMs
        then p.(resendWindowStart := Some(now), resendAttempts := 0)
        else p;
      if p1.resendAttempts >= cfg.maxPerWindow then TooManyResends
      else
        var p2 := p1.(token := token, tokenExpires := now + DayMs,
                      resendAttempts := p1.resendAttempts + 1, lastResendAt := Some(now));
        Resend(p2, Max0(cfg.maxPerWindow - p2.resendAttempts))
  }

  /** Inside the cooldown the caller is told how long is left, and that wait is positive. */
  lemma CooldownReportsRemainingWait(p: PendingUser, now: int, cfg: ResendConfig, token: string)
    requires p.lastResendAt.Some? && now - p.lastResendAt.value < cfg.cooldownMs
    ensures ResendStep(p, now, cfg, token) == CoolingDown(cfg.cooldownMs - (now - p.lastResendAt.value))
    ensures ResendStep(p, now, cfg, token).retryAfterMs > 0
  {
  }

  /**
   * A resend counts one attempt in the current window: one more than
   * before, or exactly one when the window was unset or over; the count
   * never passes the cap, and what remains is the cap minus the count.
   */
  lemma ResendCountsOneAttempt(p: PendingUser, now: int, cfg: ResendConfig, token: string)
    requires ResendStep(p, now, cfg, token).Resend?
    ensures var d := ResendStep(p, now, cfg, token);
      var expired := p.resendWindowStart.None? || now - p.resendWindowStart.value > cfg.windowMs;
      (expired ==> d.updated.resendAttempts == 1 && d.updated.resendWindowStart == Some(now)) &&
      (!expired ==> d.updated.resendAttempts == p.resendAttempts + 1 && d.updated.resendWindowStart == p.resendWindowStart) &&
      d.updated.resendAttempts <= cfg.maxPerWindow &&
      d.attemptsRemaining == cfg.maxPerWindow - d.updated.resendAttempts &&
      d.updated.token == token && d.updated.lastResendAt == Some(now) && d.updated.email == p.email
  {
  }

  /** With the cap reached in a live window, no e-mail goes out. */
  lemma CapReachedRefuses(p: PendingUser, now: int, cfg: ResendConfig, token: string)
    requires !(p.lastResendAt.Some? && now - p.lastResendAt.value < cfg.cooldownMs)
    requires p.resendWindowStart.Some? && now - p.resendWindowStart.value <= cfg.windowMs
    requires p.resendAttempts >= cfg.maxPerWindow
    ensures ResendStep(p, now, cfg, token) == TooManyResends
  {
  }

  /** Two resends are at least a cooldown apart: right after one, the next request within the cooldown waits. */
  lemma ResendsAreSpacedByCooldown(p: PendingUser, now: int, later: int, cfg: ResendConfig, t1: string, t2: string)
    requires ResendStep(p, now, cfg, t1).Resend?
    requires later - now < cfg.cooldownMs
    ensures ResendStep(ResendStep(p, now, cfg, t1).updated, later, cfg, t2).CoolingDown?
  {
  }

  /**
   * What saving a pending sign-up keeps. The pending-user schema declares no
   * `resendWindowStart`, so a window start set during a request is dropped;
   * every other field is saved.
   */
  function Stored(p: PendingUser): (r: PendingUser)
    ensures r.resendWindowStart.None?
    ensures r.email == p.email && r.token == p.token && r.tokenExpires == p.tokenExpires &&
            r.resendAttempts == p.resendAttempts && r.lastResendAt == p.lastResendAt && r.firstSignupAt == p.firstSignupAt
  {
    p.(resendWindowStart := None)
  }

  /**
   * The decisions for successive resend requests at `times` on one pending
   * sign-up, each resend saved before the next request: through `Stored`
   * when `keepWindow` is false, as the program does, or whole when it is true.
   */
  function ResendRun(p: PendingUser, times: seq<int>, cfg: ResendConfig, token: string, keepWindow: bool): (r: seq<ResendDecision>)
    ensures |r| == |times|
    ensures times != [] ==> r[0] == ResendStep(p, times[0], cfg, token)
    decreases |times|
  {
    if times == [] then []
    else
      var d := ResendStep(p, times[0], cfg, token);
      var next := if !d.Resend? then p else if keepWindow then d.updated else Stored(d.updated);
      [d] + ResendRun(next, times[1..], cfg, token, keepWindow)
  }

  /** How many of the decisions sent an e-mail. */
  function CountResends(ds: seq<ResendDecision>): (n: nat)
    ensures n <= |ds|
  {
    if ds == [] then 0 else (if ds[0].Resend? then 1 else 0) + CountResends(ds[1..])
  }

  /**
   * As stored, the per-window cap never refuses: a saved record has no
   * window start, so every request opens a new window with the count at 0,
   * and each request outside the cooldown resends and reports one attempt used.
   */
  lemma {:induction false} AsWrittenCapNeverFires(p: PendingUser, times: seq<int>, cfg: ResendConfig, token: string)
    requires p.resendWindowStart.None? && cfg.maxPerWindow >= 1
    requires |times| > 0 && p.lastResendAt.Some? ==> times[0] - p.lastResendAt.value >= cfg.cooldownMs
    requires forall i :: 0 < i < |times| ==> times[i] - times[i - 1] >= cfg.cooldownMs
    ensures forall i :: 0 <= i < |times| ==>
      ResendRun(p, times, cfg, token, false)[i].Resend? &&
      ResendRun(p, times, cfg, token, false)[i].attemptsRemaining == cfg.maxPerWindow - 1
    decreases |times|
  {
    if times != [] {
      var d := ResendStep(p, times[0], cfg, token);
      assert d.Resend? && d.updated.resendAttempts == 1 && d.updated.lastResendAt == Some(times[0]);
      var rest := times[1..];
      forall i | 0 < i < |rest|
        ensures rest[i] - rest[i - 1] >= cfg.cooldownMs
      {
        assert rest[i] == times[i + 1] && rest[i - 1] == times[i];
      }
      if rest != [] {
        assert rest[0] == times[1];
      }
      AsWrittenCapNeverFires(Stored(d.updated), rest, cfg, token);
      var r := ResendRun(p, times, cfg, token, false);
      var tail := ResendRun(Stored(d.updated), rest, cfg, token, false);
      assert r == [d] + tail;
      assert d.attemptsRemaining == cfg.maxPerWindow - 1;
      forall i | 0 < i < |r|
        ensures r[i].Resend? && r[i].attemptsRemaining == cfg.maxPerWindow - 1
      {
        assert r[i] == tail[i - 1];
      }
    }
  }

  /**
   * With the window start kept, the requests inside one live window resend
   * at most as often as the cap leaves room for.
   */
  lemma {:induction false} KeptWindowCapsResends(p: PendingUser, w: int, times: seq<int>, cfg: ResendConfig, token: string)
    requires p.resendWindowStart == Some(w)
    requires forall i :: 0 <= i < |times| ==> times[i] - w <= cfg.windowMs
    ensures CountResends(ResendRun(p, times, cfg, token, true)) <= Max0(cfg.maxPerWindow - p.resendAttempts)
    decreases |times|
  {
    if times != [] {
      var d := ResendStep(p, times[0], cfg, token);
      var next := if !d.Resend? then p else d.updated;
      var rest := times[1..];
      assert forall i :: 0 <= i < |rest| ==> rest[i] == times[i + 1];
      KeptWindowCapsResends(next, w, rest, cfg, token);
      var r := ResendRun(p, times, cfg, token, true);
      assert r == [d] + ResendRun(next, rest, cfg, token, true);
      assert r[1..] == ResendRun(next, rest, cfg, token, true);
    }
  }

  /** The answer to a resend request. */
  datatype ResendReply =
    | Refused(code: nat, error: string)
    | RetryLater(retryAfterMs: int)
    | LimitReached
    | Resent(attemptsRemaining: int, retryAfterMs: int)

  /** Index of the first pending sign-up with this e-mail. */
  function FindPending(pending: seq<PendingUser>, email: string): (r: Option<nat>)
    ensures r.Some? ==> r.value < |pending| && pending[r.value].email == email
    ensures r.None? ==> forall k :: 0 <= k < |pending| ==> pending[k].email != email
  {
    FirstIndex(pending, (p: PendingUser) => p.email == email)
  }

  /** Index of the first verified account with this e-mail. */
  function FindAccount(accounts: seq<Account>, email: string): (r: Option<nat>)
    ensures r.Some? ==> r.value < |accounts| && accounts[r.value].email == email
    ensures r.None? ==> forall k :: 0 <= k < |accounts| ==> accounts[k].email != email
  {
    FirstIndex(accounts, (a: Account) => a.email == email)
  }

  /**
   * `login`: the checks before a token is issued. `passwordMatches` is
   * what comparing the salted, peppered password with the stored hash says.
   */
  function Login(accounts: seq<Account>, email: string, password: string, passwordMatches: bool): (r: Reply)
    ensures r.code == 200 || r.code == 400
    ensures r.code == 200 <==>
      (email != "" && password != "" && FindAccount(accounts, email).Some? &&
       accounts[FindAccount(accounts, email).value].authProvider == "local" &&
       accounts[FindAccount(accounts, email).value].hasPassword && passwordMatches)
  {
    if email == "" || password == "" then Reply(400, EmailAndPasswordRequired)
    else match FindAccount(accounts, email)
      case None => Reply(400, NoSuchEmail)
      case Some(k) =>
        if accounts[k].authProvider != "local" then Reply(400, OtherProvider)
        else if !accounts[k].hasPassword then Reply(400, NoPassword)
        else if !passwordMatches then Reply(400, IncorrectPassword)
        else Reply(200, "")
  }

  /** A sign-up while one is pending: 30-second cooldown, hourly window reset, and more than five resends refused. */
  datatype SignupDecision = SignupWait | SignupLimit | SignupResend(updated: PendingUser)

  function SignupResendStep(p: PendingUser, now: int, token: string): SignupDecision {
    if p.lastResendAt.Some? && now - p.lastResendAt.value < SignupCooldownMs then SignupWait
    else
      var expired := p.firstSignupAt.Some? && now - p.firstSignupAt.value >= SignupWindowMs;
      if !expired && p.resendAttempts > SignupResendLimit then SignupLimit
      else
        var p1 := if expired then p.(resendAttempts := 0, firstSignupAt := Some(now)) else p;
        SignupResend(p1.(token := token, tokenExpires := now + DayMs,
                         resendAttempts := p1.resendAttempts + 1, lastResendAt := Some(now)))
  }

  /** The sign-up path refuses only once the count is past its limit, so the count can reach six in a window. */
  lemma SignupResendBound(p: PendingUser, now: int, token: string)
    requires SignupResendStep(p, now, token).SignupResend?
    requires p.resendAttempts >= 0
    ensures var q := SignupResendStep(p, now, token).updated;
      1 <= q.resendAttempts <= SignupResendLimit + 1 && q.lastResendAt == Some(now) && q.token == token
  {
  }

  class AuthStore {
    var accounts: seq<Account>
    var pending: seq<PendingUser>
    var outbox: seq<Mail>

    constructor(accounts0: seq<Account>, pending0: seq<PendingUser>)
      ensures accounts == accounts0 && pending == pending0 && outbox == []
    {
      accounts := accounts0;
      pending := pending0;
      outbox := [];
    }

    /**
     * `resendVerification`. The updated sign-up is saved, without its window
     * start, before the e-mail is sent, so a failed send (`mailSent` false)
     * still counts the attempt.
     */
    method ResendVerification(email: string, now: int, cfg: ResendConfig, token: string, mailSent: bool) returns (reply: ResendReply)
      modifies this`pending, this`outbox
      ensures email == "" ==> reply == Refused(400, EmailRequired) && pending == old(pending) && outbox == old(outbox)
      ensures email != "" && FindPending(old(pending), email).None? ==>
        reply == Refused(404, NotPending) && pending == old(pending) && outbox == old(outbox)
      ensures email != "" && FindPending(old(pending), email).Some? ==>
        var k := FindPending(old(pending), email).value;
        match ResendStep(old(pending)[k], now, cfg, token)
        case CoolingDown(wait) => reply == RetryLater(wait) && pending == old(pending) && outbox == old(outbox)
        case TooManyResends => reply == LimitReached && pending == old(pending) && outbox == old(outbox)
        case Resend(p2, left) =>
          pending == old(pending)[k := Stored(p2)] &&
          (mailSent ==> reply == Resent(left, cfg.cooldownMs) && outbox == old(outbox) + [Mail(email, token)]) &&
          (!mailSent ==> reply == Refused(500, ServerError) && outbox == old(outbox))
    {
      if email == "" {
        return Refused(400, EmailRequired);
      }
      var found := FindPending(pending, email);
      if found.None? {
        return Refused(404, NotPending);
      }
      var k := found.value;
      var decision := ResendStep(pending[k], now, cfg, token);
      match decision {
        case CoolingDown(wait) =>
          return RetryLater(wait);
        case TooManyResends =>
          return LimitReached;
        case Resend(p2, left) =>
          pending := pending[k := Stored(p2)];
          if !mailSent {
            return Refused(500, ServerError);
          }
          outbox := outbox + [Mail(email, token)];
          return Resent(left, cfg.cooldownMs);
      }
    }

    /**
     * `signup`: a registered address is refused; a pending one gets a new
     * token under the sign-up limits (saved only once the e-mail went out);
     * a new one is stored as pending and then mailed.
     */
    method Signup(email: string, password: string, now: int, token: string, mailSent: bool) returns (reply: Reply)
      modifies this`pending, this`outbox
      ensures email == "" || password == "" ==>
        reply == Reply(400, EmailAndPasswordRequired) && pending == old(pending) && outbox == old(outbox)
      ensures email != "" && password != "" && FindAccount(accounts, email).Some? ==>
        reply == Reply(400, AlreadyRegistered) && pending == old(pending) && outbox == old(outbox)
      ensures email != "" && password != "" && FindAccount(accounts, email).None? && FindPending(old(pending), email).Some? ==>
        var k := FindPending(old(pending), email).value;
        match SignupResendStep(old(pending)[k], now, token)
        case SignupWait => reply == Reply(429, PendingWait) && pending == old(pending) && outbox == old(outbox)
        case SignupLimit => reply == Reply(429, ResendLimitReached) && pending == old(pending) && outbox == old(outbox)
        case SignupResend(q) =>
          (mailSent ==> reply == Reply(200, "") && pending == old(pending)[k := q] && outbox == old(outbox) + [Mail(email, token)]) &&
          (!mailSent ==> reply.code == 500 && pending == old(pending) && outbox == old(outbox))
      ensures email != "" && password != "" && FindAccount(accounts, email).None? && FindPending(old(pending), email).None? ==>
        pending == old(pending) + [PendingUser(email, token, now + DayMs, 0, None, None, Some(now))] &&
        (mailSent ==> reply == Reply(201, "") && outbox == old(outbox) + [Mail(email, token)]) &&
        (!mailSent ==> reply.code == 500 && outbox == old(outbox))
    {
      if email == "" || password == "" {
        return Reply(400, EmailAndPasswordRequired);
      }
      if FindAccount(accounts, email).Some? {
        return Reply(400, AlreadyRegistered);
      }
      var found := FindPending(pending, email);
      if found.Some? {
        var k := found.value;
        match SignupResendStep(pending[k], now, token) {
          case SignupWait =>
            return Reply(429, PendingWait);
          case SignupLimit =>
            return Reply(429, ResendLimitReached);
          case SignupResend(q) =>
            if !mailSent {
              return Reply(500, "");
            }
            pending := pending[k := q];
            outbox := outbox + [Mail(email, token)];
            return Reply(200, "");
        }
      }
      pending := pending + [PendingUser(email, token, now + DayMs, 0, None, None, Some(now))];
      if !mailSent {
        return Reply(500, "");
      }
      outbox := outbox + [Mail(email, token)];
      return Reply(201, "");
    }
  }
}
