/** The admin one-time-code routes (`POST /api/admin/send-otp` and
 *  `POST /api/admin/verify-otp`) over the `admin_otp_codes` table.
 *
 *  The table is the `rows` field of `OtpStore`; the signed-in user, the
 *  configured admin e-mail, the clock (integer milliseconds), the random draw
 *  and the outcome of each database or e-mail call are parameters.
 */
module AdminOtp {
  import opened Common

  const CooldownMs := 60 * 1000
  const CodeLifetimeMs := 5 * 60 * 1000
  const MaxFailedAttempts := 5
  const SessionMaxAge := 60 * 60
  /** The lifetime the e-mail announces, in minutes. */
  const EmailedLifetimeMinutes := 10

  /** The signed-in user: its id and (possibly absent) e-mail. */
  datatype User = User(id: string, email: Option<string>)

  /** One row of `admin_otp_codes`. `failedAttempts` may be null. */
  datatype OtpRow = OtpRow(id: nat, email: string, code: string, createdAt: int, expiresAt: int,
                           used: bool, failedAttempts: Option<int>)
  {
    /** `failed_attempts || 0`; also what `failed_attempts >= 5` compares, since null reads as 0. */
    function Attempts(): int { if failedAttempts.Some? then failedAttempts.value else 0 }
  }

  /** The request body of verify-otp: not JSON at all, or a JSON object whose `code` may be absent. */
  datatype Body = Malformed | Json(code: Option<string>)

  /** The `admin_session` cookie set on success. */
  datatype Cookie = Cookie(name: string, value: string, httpOnly: bool, secure: bool,
                           sameSite: string, maxAge: nat, path: string)

  datatype VerifyResponse =
    | NotAuthenticated
    | NotAuthorized
    | NoActiveCode
    | TooManyAttempts
    | WrongCode(remaining: int)
    | Verified(cookie: Cookie)
    | VerifyServerError
  {
    function Status(): int
    {
      match this
      case NotAuthenticated => 401
      case NotAuthorized => 403
      case NoActiveCode => 401
      case TooManyAttempts => 429
      case WrongCode(_) => 401
      case Verified(_) => 200
      case VerifyServerError => 500
    }

    function Message(): string
    {
      match this
      case NotAuthenticated => "Not authenticated"
      case NotAuthorized => "Not authorized"
      case NoActiveCode => "Invalid or expired code request"
      case TooManyAttempts => "Too many failed attempts. Please request a new code."
      case WrongCode(n) => "Invalid code. " + IntToString(n) + " attempts remaining."
      case Verified(_) => ""
      case VerifyServerError => "Internal server error"
    }
  }

  datatype SendResponse =
    | SendNotAuthenticated
    | SendNotAuthorized
    | Cooldown(waitSeconds: int)
    | InsertFailed
    | EmailFailed
    | Sent
  {
    function Status(): int
    {
      match this
      case SendNotAuthenticated => 401
      case SendNotAuthorized => 403
      case Cooldown(_) => 429
      case InsertFailed => 500
      case EmailFailed => 500
      case Sent => 200
    }

    function Message(): string
    {
      match this
      case SendNotAuthenticated => "Not authenticated"
      case SendNotAuthorized => "Not authorized"
      case Cooldown(w) => "Please wait " + IntToString(w) + " seconds before requesting a new code"
      case InsertFailed => "Failed to generate code"
      case EmailFailed => "Failed to send email"
      case Sent => "Verification code sent to your email"
    }
  }

  /** The e-mail sent with a new code. */
  datatype Email = Email(to: string, code: string, statedLifetimeMinutes: nat)

  // ---------------------------------------------------------------------------
  // Queries

  /** The row the query `... order by created_at desc limit 1` returns among the rows
   *  satisfying `p`: the latest one, and the last in table order among equally late ones. */
  function Latest(rows: seq<OtpRow>, p: OtpRow -> bool): (i: Option<nat>)
    ensures i.None? <==> forall k :: 0 <= k < |rows| ==> !p(rows[k])
    ensures i.Some? ==> i.value < |rows| && p(rows[i.value])
    ensures i.Some? ==> forall k :: 0 <= k < |rows| && p(rows[k]) ==> rows[k].createdAt <= rows[i.value].createdAt
    ensures i.Some? ==> forall k :: i.value < k < |rows| && p(rows[k]) ==> rows[k].createdAt < rows[i.value].createdAt
    decreases |rows|
  {
    if rows == [] then None
    else
      var j := Latest(rows[..|rows| - 1], p);
      var last := |rows| - 1;
      if p(rows[last]) && (j.None? || rows[j.value].createdAt <= rows[last].createdAt) then Some(last)
      else j
  }

  /** A code verify-otp may use: the user's, unused, and not yet expired. */
  predicate Active(r: OtpRow, email: Option<string>, now: int)
  {
    email == Some(r.email) && !r.used && r.expiresAt >= now
  }

  /** The code verify-otp selects for `email` at time `now`. */
  function Selected(rows: seq<OtpRow>, email: Option<string>, now: int): Option<nat>
  {
    Latest(rows, r => Active(r, email, now))
  }

  /** A code send-otp counts for the cooldown: the user's, created in the last minute. */
  predicate Recent(r: OtpRow, email: Option<string>, now: int)
  {
    email == Some(r.email) && r.createdAt >= now - CooldownMs
  }

  /** `update({used: true}).eq("id", id)`. */
  function MarkUsed(rows: seq<OtpRow>, id: nat): seq<OtpRow>
  {
    seq(|rows|, k requires 0 <= k < |rows| => if rows[k].id == id then rows[k].(used := true) else rows[k])
  }

  /** `update({failed_attempts: n}).eq("id", id)`. */
  function SetAttempts(rows: seq<OtpRow>, id: nat, n: int): seq<OtpRow>
  {
    seq(|rows|, k requires 0 <= k < |rows| => if rows[k].id == id then rows[k].(failedAttempts := Some(n)) else rows[k])
  }

  // ---------------------------------------------------------------------------
  // verify-otp

  function SessionCookie(production: bool): Cookie
  {
    Cookie("admin_session", "true", true, production, "strict", SessionMaxAge, "/")
  }

  /** The user is the admin: `user.email === ADMIN_EMAIL` (both may be undefined). */
  predicate IsAdmin(user: User, adminEmail: Option<string>)
  {
    user.email == adminEmail
  }

  /** The table after an `update` whose error the route does not look at: the
   *  new table when the update went through, the old one when it failed. */
  function Updated(rows: seq<OtpRow>, rows': seq<OtpRow>, updateOk: bool): seq<OtpRow>
  {
    if updateOk then rows' else rows
  }

  /** verify-otp's response and the table after it. `lookupOk` is false when the
   *  select reports an error; `updateOk` is false when the one update the route
   *  then issues reports an error, which the route ignores. */
  function VerifyStep(rows: seq<OtpRow>, body: Body, user: Option<User>, adminEmail: Option<string>,
                      now: int, lookupOk: bool, updateOk: bool, production: bool): (r: (seq<OtpRow>, VerifyResponse))
    ensures |r.0| == |rows|
    ensures !updateOk ==> r.0 == rows
    ensures r.1.Verified? <==>
      && !body.Malformed? && user.Some? && IsAdmin(user.value, adminEmail) && lookupOk
      && var sel := Selected(rows, user.value.email, now);
         sel.Some? && rows[sel.value].Attempts() < MaxFailedAttempts && body.code == Some(rows[sel.value].code)
    ensures r.0 != rows ==> r.1.Verified? || r.1 == TooManyAttempts || r.1.WrongCode?
  {
    if body.Malformed? then (rows, VerifyServerError)
    else if user.None? then (rows, NotAuthenticated)
    else if !IsAdmin(user.value, adminEmail) then (rows, NotAuthorized)
    else
      var email := user.value.email;
      var sel := if lookupOk then Selected(rows, email, now) else None;
      if sel.None? then (rows, NoActiveCode)
      else
        var r := rows[sel.value];
        if r.Attempts() >= MaxFailedAttempts then (Updated(rows, MarkUsed(rows, r.id), updateOk), TooManyAttempts)
        else if body.code != Some(r.code) then
          (Updated(rows, SetAttempts(rows, r.id, r.Attempts() + 1), updateOk), WrongCode(4 - r.Attempts()))
        else (Updated(rows, MarkUsed(rows, r.id), updateOk), Verified(SessionCookie(production)))
  }

  // ---------------------------------------------------------------------------
  // send-otp

  /** `Math.ceil(x / d)` for a positive divisor. */
  function CeilDiv(x: int, d: int): (q: int)
    requires d > 0
    ensures (q - 1) * d < x <= q * d
  {
    -((-x) / d)
  }

  /** `waitSeconds` for a code created at `createdAt`, with `after` the clock
   *  reading the route takes once the cooldown query has returned. */
  function WaitSeconds(after: int, createdAt: int): int
  {
    CeilDiv(CooldownMs - (after - createdAt), 1000)
  }

  /** `Math.floor(100000 + Math.random() * 900000)`, with the draw the whole part of
   *  `Math.random() * 900000`. */
  function NewCode(draw: nat): (code: nat)
    requires draw < 900000
    ensures 100000 <= code <= 999999
  {
    100000 + draw
  }

  datatype SendResult = SendResult(rows: seq<OtpRow>, response: SendResponse, email: Option<Email>)

  /** send-otp's response, the table after it and the e-mail sent. A failed
   *  cooldown lookup reads as no recent code, since its error is not inspected.
   *  The route reads the clock before the cooldown query (`now`, for the
   *  one-minute window) and again after it (`after`, for `waitSeconds` or for the
   *  new code's expiry); the new row's `created_at` is taken as `after` too. */
  function SendStep(rows: seq<OtpRow>, nextId: nat, user: Option<User>, adminEmail: Option<string>,
                    now: int, after: int, draw: nat, lookupOk: bool, insertOk: bool, emailOk: bool): (r: SendResult)
    requires draw < 900000
    ensures r.rows == rows || (|r.rows| == |rows| + 1 && r.rows[..|rows|] == rows)
    ensures r.email.Some? <==> r.rows != rows
    ensures r.email.Some? ==> r.rows[|rows|].code == r.email.value.code && r.rows[|rows|].id == nextId
    ensures r.response.Cooldown? <==>
      user.Some? && IsAdmin(user.value, adminEmail) && lookupOk &&
      exists k :: 0 <= k < |rows| && Recent(rows[k], user.value.email, now)
  {
    if user.None? then SendResult(rows, SendNotAuthenticated, None)
    else if !IsAdmin(user.value, adminEmail) then SendResult(rows, SendNotAuthorized, None)
    else
      var email := user.value.email;
      var recent := if lookupOk then Latest(rows, r => Recent(r, email, now)) else None;
      if recent.Some? then SendResult(rows, Cooldown(WaitSeconds(after, rows[recent.value].createdAt)), None)
      else if !insertOk || email.None? then SendResult(rows, InsertFailed, None)
      else
        var code := NatToString(NewCode(draw));
        var row := OtpRow(nextId, email.value, code, after, after + CodeLifetimeMs, false, None);
        var mail := Email(email.value, code, EmailedLifetimeMinutes);
        SendResult(rows + [row], if emailOk then Sent else EmailFailed, Some(mail))
  }

  // ---------------------------------------------------------------------------
  // The table

  /** Row ids are distinct and below `nextId`. */
  ghost predicate IdsFresh(rows: seq<OtpRow>, nextId: nat)
  {
    && (forall k :: 0 <= k < |rows| ==> rows[k].id < nextId)
    && (forall j, k :: 0 <= j < k < |rows| ==> rows[j].id != rows[k].id)
  }

  class OtpStore {
    var rows: seq<OtpRow>
    var nextId: nat

    ghost predicate Valid()
      reads this
    {
      IdsFresh(rows, nextId)
    }

    constructor()
      ensures Valid() && rows == [] && nextId == 0
    {
      rows := [];
      nextId := 0;
    }

    /** verify-otp: selects the latest active code, then locks it, counts a failure or uses it. */
    method Verify(body: Body, user: Option<User>, adminEmail: Option<string>, now: int,
                  lookupOk: bool, updateOk: bool, production: bool) returns (resp: VerifyResponse)
      requires Valid()
      modifies this
      ensures Valid() && nextId == old(nextId)
      ensures (rows, resp) == VerifyStep(old(rows), body, user, adminEmail, now, lookupOk, updateOk, production)
    {
      if body.Malformed? { return VerifyServerError; }
      if user.None? { return NotAuthenticated; }
      if !IsAdmin(user.value, adminEmail) { return NotAuthorized; }
      var email := user.value.email;
      var sel := if lookupOk then Selected(rows, email, now) else None;
      if sel.None? { return NoActiveCode; }
      var r := rows[sel.value];
      if r.Attempts() >= MaxFailedAttempts {
        if updateOk { rows := MarkUsed(rows, r.id); }
        return TooManyAttempts;
      }
      if body.code != Some(r.code) {
        if updateOk { rows := SetAttempts(rows, r.id, r.Attempts() + 1); }
        return WrongCode(4 - r.Attempts());
      }
      if updateOk { rows := MarkUsed(rows, r.id); }
      resp := Verified(SessionCookie(production));
    }

    /** send-otp: refuses within the cooldown, otherwise stores a new code and mails it. */
    method Send(user: Option<User>, adminEmail: Option<string>, now: int, after: int, draw: nat,
                lookupOk: bool, insertOk: bool, emailOk: bool) returns (resp: SendResponse, mail: Option<Email>)
      requires Valid() && draw < 900000
      modifies this
      ensures Valid()
      ensures SendResult(rows, resp, mail) == SendStep(old(rows), old(nextId), user, adminEmail, now, after, draw, lookupOk, insertOk, emailOk)
      ensures rows == old(rows) ==> nextId == old(nextId)
    {
      if user.None? { return SendNotAuthenticated, None; }
      if !IsAdmin(user.value, adminEmail) { return SendNotAuthorized, None; }
      var email := user.value.email;
      var recent := if lookupOk then Latest(rows, r => Recent(r, email, now)) else None;
      if recent.Some? {
        return Cooldown(WaitSeconds(after, rows[recent.value].createdAt)), None;
      }
      if !insertOk || email.None? { return InsertFailed, None; }
      var code := NatToString(NewCode(draw));
      rows := rows + [OtpRow(nextId, email.value, code, after, after + CodeLifetimeMs, false, None)];
      nextId := nextId + 1;
      mail := Some(Email(email.value, code, EmailedLifetimeMinutes));
      resp := if emailOk then Sent else EmailFailed;
    }
  }

  // ---------------------------------------------------------------------------
  // Properties

  /** Without a user, or with a non-admin one, neither route touches the table. */
  lemma GateComesFirst(rows: seq<OtpRow>, nextId: nat, body: Body, user: Option<User>, adminEmail: Option<string>,
                       now: int, after: int, draw: nat, lookupOk: bool, updateOk: bool, insertOk: bool, emailOk: bool, production: bool)
    requires draw < 900000 && !body.Malformed?
    ensures user.None? ==> VerifyStep(rows, body, user, adminEmail, now, lookupOk, updateOk, production) == (rows, NotAuthenticated)
    ensures user.None? ==> SendStep(rows, nextId, user, adminEmail, now, after, draw, lookupOk, insertOk, emailOk) == SendResult(rows, SendNotAuthenticated, None)
    ensures user.Some? && user.value.email != adminEmail ==>
      && VerifyStep(rows, body, user, adminEmail, now, lookupOk, updateOk, production) == (rows, NotAuthorized)
      && SendStep(rows, nextId, user, adminEmail, now, after, draw, lookupOk, insertOk, emailOk) == SendResult(rows, SendNotAuthorized, None)
  {
  }

  /** No active code for the user gives 401 and changes nothing. */
  lemma NoActiveCodeRejected(rows: seq<OtpRow>, code: Option<string>, user: User, now: int, updateOk: bool, production: bool)
    requires forall k :: 0 <= k < |rows| ==> !Active(rows[k], user.email, now)
    ensures VerifyStep(rows, Json(code), Some(user), user.email, now, true, updateOk, production) == (rows, NoActiveCode)
  {
  }

  /** A code with five or more failures is refused with 429, even when the
   *  submitted code is right, and is used up if the update goes through. */
  lemma LockoutEvenWithRightCode(rows: seq<OtpRow>, user: User, now: int, updateOk: bool, production: bool)
    requires Selected(rows, user.email, now).Some?
    requires rows[Selected(rows, user.email, now).value].Attempts() >= 5
    ensures var i := Selected(rows, user.email, now).value;
      var (rows', resp) := VerifyStep(rows, Json(Some(rows[i].code)), Some(user), user.email, now, true, updateOk, production);
      && resp == TooManyAttempts && resp.Status() == 429
      && (updateOk ==> rows' == MarkUsed(rows, rows[i].id) && rows'[i].used)
      && (!updateOk ==> rows' == rows)
  {
  }

  /** A wrong code reports `4 - previous` attempts remaining and, if the update
   *  goes through, adds one to the failure count (null counting as 0). */
  lemma WrongCodeCounted(rows: seq<OtpRow>, code: Option<string>, user: User, now: int, updateOk: bool, production: bool)
    requires Selected(rows, user.email, now).Some?
    requires var r := rows[Selected(rows, user.email, now).value];
      r.Attempts() < 5 && code != Some(r.code)
    ensures var i := Selected(rows, user.email, now).value;
      var (rows', resp) := VerifyStep(rows, Json(code), Some(user), user.email, now, true, updateOk, production);
      && resp == WrongCode(4 - rows[i].Attempts()) && resp.Status() == 401
      && (updateOk ==> rows'[i].Attempts() == rows[i].Attempts() + 1
                       && rows'[i].(failedAttempts := rows[i].failedAttempts) == rows[i])
      && (!updateOk ==> rows' == rows)
  {
  }

  /** The right code sets a one-hour `admin_session` cookie whether or not the
   *  `used` update goes through. When it does, the row is marked used and never
   *  selected again; when it fails, the same row stays selected and the code can
   *  be used again. */
  lemma RightCodeUsedOnce(rows: seq<OtpRow>, user: User, now: int, later: int, updateOk: bool, production: bool)
    requires Selected(rows, user.email, now).Some?
    requires rows[Selected(rows, user.email, now).value].Attempts() < 5
    ensures var i := Selected(rows, user.email, now).value;
      var (rows', resp) := VerifyStep(rows, Json(Some(rows[i].code)), Some(user), user.email, now, true, updateOk, production);
      && resp.Verified? && resp.cookie.name == "admin_session" && resp.cookie.maxAge == 3600
      && (updateOk ==> rows'[i].used && Selected(rows', user.email, later) != Some(i))
      && (!updateOk ==> Selected(rows', user.email, now) == Some(i)
                        && VerifyStep(rows', Json(Some(rows[i].code)), Some(user), user.email, now, true, updateOk, production).1.Verified?)
  {
  }

  /** Rows that agree on which rows qualify and, for those, on their creation times
   *  give the same selection. */
  lemma {:induction false} LatestAgrees(a: seq<OtpRow>, b: seq<OtpRow>, p: OtpRow -> bool, q: OtpRow -> bool)
    requires |a| == |b|
    requires forall k :: 0 <= k < |a| ==> p(a[k]) == q(b[k])
    requires forall k :: 0 <= k < |a| && p(a[k]) ==> a[k].createdAt == b[k].createdAt
    ensures Latest(a, p) == Latest(b, q)
    decreases |a|
  {
    if a != [] {
      LatestAgrees(a[..|a| - 1], b[..|b| - 1], p, q);
    }
  }

  /** Counting a failure does not change which code is selected. */
  lemma AttemptsKeepSelection(rows: seq<OtpRow>, id: nat, n: int, email: Option<string>, now: int)
    ensures Selected(SetAttempts(rows, id, n), email, now) == Selected(rows, email, now)
  {
    LatestAgrees(rows, SetAttempts(rows, id, n), r => Active(r, email, now), r => Active(r, email, now));
  }

  /** The table after `k` wrong codes in a row, each update going through. */
  function AfterWrongCodes(rows: seq<OtpRow>, code: string, user: User, now: int, k: nat): seq<OtpRow>
    decreases k
  {
    if k == 0 then rows
    else AfterWrongCodes(VerifyStep(rows, Json(Some(code)), Some(user), user.email, now, true, true, false).0, code, user, now, k - 1)
  }

  /** Each wrong code keeps the same row selected and raises its count by one:
   *  from `failed` failures, `k` more leave `failed + k`. */
  lemma {:induction false} WrongCodesAccumulate(rows: seq<OtpRow>, code: string, user: User, now: int, k: nat, i: nat, failed: nat)
    requires Selected(rows, user.email, now) == Some(i)
    requires rows[i].Attempts() == failed && rows[i].code != code
    requires failed + k <= 5
    ensures var rows' := AfterWrongCodes(rows, code, user, now, k);
      && |rows'| == |rows|
      && Selected(rows', user.email, now) == Some(i)
      && rows'[i].Attempts() == failed + k && rows'[i].code == rows[i].code
    decreases k
  {
    if k > 0 {
      var next := VerifyStep(rows, Json(Some(code)), Some(user), user.email, now, true, true, false).0;
      WrongCodeStep(rows, code, user, now, i);
      WrongCodesAccumulate(next, code, user, now, k - 1, i, failed + 1);
      assert AfterWrongCodes(rows, code, user, now, k) == AfterWrongCodes(next, code, user, now, k - 1);
    }
  }

  /** One wrong code on the selected row. */
  lemma WrongCodeStep(prev: seq<OtpRow>, code: string, user: User, now: int, i: nat)
    requires Selected(prev, user.email, now) == Some(i)
    requires prev[i].Attempts() < 5 && prev[i].code != code
    ensures var rows' := VerifyStep(prev, Json(Some(code)), Some(user), user.email, now, true, true, false).0;
      && |rows'| == |prev|
      && Selected(rows', user.email, now) == Some(i)
      && rows'[i].Attempts() == prev[i].Attempts() + 1 && rows'[i].code == prev[i].code
  {
    AttemptsKeepSelection(prev, prev[i].id, prev[i].Attempts() + 1, user.email, now);
  }

  /** After five wrong codes the sixth attempt is refused, whatever code it carries. */
  lemma FiveFailuresLockOut(rows: seq<OtpRow>, code: string, next: string, user: User, now: int, updateOk: bool, production: bool)
    requires Selected(rows, user.email, now).Some?
    requires var r := rows[Selected(rows, user.email, now).value];
      r.Attempts() == 0 && r.code != code
    ensures VerifyStep(AfterWrongCodes(rows, code, user, now, 5), Json(Some(next)), Some(user), user.email, now, true, updateOk, production).1
      == TooManyAttempts
  {
    WrongCodesAccumulate(rows, code, user, now, 5, Selected(rows, user.email, now).value, 0);
  }

  /** For a code the window at `now` counted (created in the minute before it),
   *  the `waitSeconds` computed at the later reading `after` is at most 60, and at
   *  least minus the whole seconds the query took. Without delay it is between 0
   *  and 60, and at least 1 unless the code is exactly 60 s old. */
  lemma WaitSecondsRange(now: int, after: int, createdAt: int)
    requires now - CooldownMs <= createdAt <= now <= after
    ensures -((after - now) / 1000) <= WaitSeconds(after, createdAt) <= 60
    ensures after == now ==> 0 <= WaitSeconds(after, createdAt)
    ensures after == now && createdAt > now - CooldownMs ==> WaitSeconds(after, createdAt) >= 1
    ensures after == now && createdAt == now - CooldownMs ==> WaitSeconds(after, createdAt) == 0
  {
  }

  /** The wait can be negative: a code 59.5 s old when the window is computed,
   *  with a query taking 1.5 s, is reported as a wait of -1 seconds. */
  lemma NegativeWait(rows: seq<OtpRow>, user: User, now: int)
    requires user.email.Some?
    requires rows == [OtpRow(0, user.email.value, "123456", now - 59500, now + 240500, false, None)]
    ensures SendStep(rows, 1, Some(user), user.email, now, now + 1500, 0, true, true, true).response == Cooldown(-1)
  {
    assert Recent(rows[0], user.email, now);
  }

  /** A new code has six digits, expires five minutes after it is created although the
   *  e-mail announces ten, and is e-mailed exactly as stored. */
  lemma NewCodeShape(rows: seq<OtpRow>, nextId: nat, user: User, now: int, after: int, draw: nat, emailOk: bool)
    requires draw < 900000 && user.email.Some?
    requires forall k :: 0 <= k < |rows| ==> !Recent(rows[k], user.email, now)
    ensures var res := SendStep(rows, nextId, Some(user), user.email, now, after, draw, true, true, emailOk);
      var row := res.rows[|res.rows| - 1];
      && res.rows == rows + [row]
      && |row.code| == 6 && AllDigits(row.code) && 100000 <= DigitsValue(row.code) <= 999999
      && row.expiresAt - row.createdAt == CodeLifetimeMs
      && res.email == Some(Email(user.email.value, row.code, 10))
      && res.email.value.statedLifetimeMinutes * 60000 != row.expiresAt - row.createdAt
      && !row.used && row.Attempts() == 0
  {
    var c := NewCode(draw);
    NatToStringLength(c, 6);
    NatToStringRoundTrip(c);
  }

  /** An insert failure sends no e-mail; an e-mail failure keeps the inserted row. */
  lemma SendFailurePaths(rows: seq<OtpRow>, nextId: nat, user: User, now: int, after: int, draw: nat)
    requires draw < 900000 && user.email.Some?
    requires forall k :: 0 <= k < |rows| ==> !Recent(rows[k], user.email, now)
    ensures SendStep(rows, nextId, Some(user), user.email, now, after, draw, true, false, true) == SendResult(rows, InsertFailed, None)
    ensures var res := SendStep(rows, nextId, Some(user), user.email, now, after, draw, true, true, false);
      res.response == EmailFailed && res.response.Status() == 500 && |res.rows| == |rows| + 1
  {
  }

  /** Any code stored in the last minute blocks a new one with 429 and no row, even
   *  one whose e-mail failed. The first request stores its code at `after`; the
   *  second reads the clock at `later` for the window and at `later2` for the wait,
   *  which is at most 60 and at least minus the whole seconds between the two. */
  lemma SendThenResendCoolsDown(rows: seq<OtpRow>, nextId: nat, user: User, now: int, after: int, later: int, later2: int,
                               draw: nat, draw2: nat, emailOk: bool, insertOk: bool, emailOk2: bool)
    requires draw < 900000 && draw2 < 900000 && user.email.Some?
    requires forall k :: 0 <= k < |rows| ==> rows[k].createdAt <= after
    requires after <= later <= after + CooldownMs && later <= later2
    requires SendStep(rows, nextId, Some(user), user.email, now, after, draw, true, true, emailOk).email.Some?
    ensures var first := SendStep(rows, nextId, Some(user), user.email, now, after, draw, true, true, emailOk);
      var second := SendStep(first.rows, nextId + 1, Some(user), user.email, later, later2, draw2, true, insertOk, emailOk2);
      && second.response.Cooldown? && second.rows == first.rows && second.email.None?
      && -((later2 - later) / 1000) <= second.response.waitSeconds <= 60
      && (later2 == later ==> 0 <= second.response.waitSeconds)
  {
    var first := SendStep(rows, nextId, Some(user), user.email, now, after, draw, true, true, emailOk);
    var n := |rows|;
    assert Recent(first.rows[n], user.email, later);
    var sel := Latest(first.rows, r => Recent(r, user.email, later));
    assert sel.Some?;
    var c := first.rows[sel.value].createdAt;
    assert c >= first.rows[n].createdAt == after;
    WaitSecondsRange(later, later2, c);
  }

  /** A freshly e-mailed code, entered within five minutes, unlocks the admin area. */
  lemma SendThenVerify(rows: seq<OtpRow>, nextId: nat, user: User, now: int, after: int, later: int,
                       draw: nat, emailOk: bool, production: bool)
    requires draw < 900000 && user.email.Some?
    requires forall k :: 0 <= k < |rows| ==> rows[k].createdAt <= after
    requires after <= later <= after + CodeLifetimeMs
    requires SendStep(rows, nextId, Some(user), user.email, now, after, draw, true, true, emailOk).email.Some?
    ensures var sent := SendStep(rows, nextId, Some(user), user.email, now, after, draw, true, true, emailOk);
      var (rows', resp) := VerifyStep(sent.rows, Json(Some(sent.email.value.code)), Some(user), user.email, later, true, true, production);
      resp.Verified? && rows'[|rows|].used
  {
    SentCodeSelected(rows, nextId, user, now, after, later, draw, emailOk);
  }

  /** The code just stored is the one verify-otp selects, unused and with no failures. */
  lemma SentCodeSelected(rows: seq<OtpRow>, nextId: nat, user: User, now: int, after: int, later: int,
                         draw: nat, emailOk: bool)
    requires draw < 900000 && user.email.Some?
    requires forall k :: 0 <= k < |rows| ==> rows[k].createdAt <= after
    requires after <= later <= after + CodeLifetimeMs
    requires SendStep(rows, nextId, Some(user), user.email, now, after, draw, true, true, emailOk).email.Some?
    ensures var sent := SendStep(rows, nextId, Some(user), user.email, now, after, draw, true, true, emailOk);
      && |sent.rows| == |rows| + 1
      && Selected(sent.rows, user.email, later) == Some(|rows|)
      && sent.rows[|rows|].code == sent.email.value.code
      && sent.rows[|rows|].Attempts() == 0
  {
    var sent := SendStep(rows, nextId, Some(user), user.email, now, after, draw, true, true, emailOk);
    assert sent.rows[..|rows|] == rows;
    assert Active(sent.rows[|rows|], user.email, later);
  }
}
