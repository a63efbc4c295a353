/** The admin area's client gate (`components/admin/AdminLayout.jsx`): the
 *  `authState` machine of `AdminLayout`, the send-code dialog with its cooldown,
 *  and the verify-code dialog with its six digit boxes and resend cooldown.
 *
 *  Each asynchronous handler is one method call that receives what its request
 *  returned; timers are `Tick` calls.
 */
module AdminLayout {
  import opened Common
  import AdminOtp

  datatype AuthState = Loading | Login | SendOtp | VerifyOtp | Unlocked | Unauthorized

  /** What `checkAuth` found: `getUser` threw, returned no user, or returned a user
   *  whose session lookup either threw or answered `isUnlocked`. */
  datatype AuthLookup =
    | LookupThrew
    | NoUser
    | UserFound(email: Option<string>, session: Result<bool, string>)

  /** The state `checkAuth` leaves, starting from `prev`. */
  function CheckAuth(prev: AuthState, lookup: AuthLookup, adminEmail: Option<string>): AuthState
  {
    match lookup
    case LookupThrew => Login
    case NoUser => Login
    case UserFound(email, session) =>
      if email != adminEmail then Unauthorized
      else if session.Err? then Login
      else if session.value then Unlocked
      else if prev == VerifyOtp then VerifyOtp
      else SendOtp
  }

  /** `checkAuth`'s outcomes: login without a user or on an exception, unauthorized
   *  for another e-mail, unlocked for an unlocked session, otherwise the code flow,
   *  keeping a code entry in progress. */
  lemma CheckAuthOutcomes(prev: AuthState, lookup: AuthLookup, adminEmail: Option<string>)
    ensures lookup.NoUser? || lookup.LookupThrew? ==> CheckAuth(prev, lookup, adminEmail) == Login
    ensures lookup.UserFound? && lookup.email != adminEmail ==> CheckAuth(prev, lookup, adminEmail) == Unauthorized
    ensures CheckAuth(prev, lookup, adminEmail) == Unlocked <==>
      lookup.UserFound? && lookup.email == adminEmail && lookup.session == Ok(true)
    ensures lookup.UserFound? && lookup.email == adminEmail && lookup.session == Ok(false) ==>
      CheckAuth(prev, lookup, adminEmail) == (if prev == VerifyOtp then VerifyOtp else SendOtp)
  {
  }

  /** What the layout renders. */
  datatype View = Spinner | LoginDialog | SendDialog | VerifyDialog | Dashboard

  function Render(state: AuthState, loading: bool): (v: View)
    ensures v == Dashboard <==> !loading && (state == Unlocked || state == Loading)
    ensures v == Spinner <==> loading || state == Unauthorized
  {
    if loading || state == Unauthorized then Spinner
    else match state
      case Login => LoginDialog
      case SendOtp => SendDialog
      case VerifyOtp => VerifyDialog
      case _ => Dashboard
  }

  datatype AuthEvent = SignedIn(hasSession: bool) | SignedOut | OtherEvent

  /** `AdminLayout`'s state. */
  class AdminGate {
    var state: AuthState
    var loading: bool
    /** `router.push("/")` was called. */
    var sentHome: bool

    /** Once loading has finished the state is no longer the initial one. */
    ghost predicate Valid()
      reads this
    {
      !loading ==> state != Loading
    }

    constructor()
      ensures Valid() && state == Loading && loading && !sentHome
    {
      state := Loading;
      loading := true;
      sentHome := false;
    }

    /** One run of the auth effect, with what `checkAuth` found. In `verifyOtp` the
     *  check is skipped. */
    method RunCheck(lookup: AuthLookup, adminEmail: Option<string>)
      requires Valid()
      modifies this
      ensures Valid()
      ensures !loading
      ensures old(state) == VerifyOtp ==> state == VerifyOtp && sentHome == old(sentHome)
      ensures old(state) != VerifyOtp ==> state == CheckAuth(old(state), lookup, adminEmail)
      ensures old(state) != VerifyOtp ==> sentHome == (old(sentHome) || state == Unauthorized)
    {
      if state == VerifyOtp {
        loading := false;
        return;
      }
      state := CheckAuth(state, lookup, adminEmail);
      if state == Unauthorized {
        sentHome := true;
      }
      loading := false;
    }

    /** The auth listener. The effect that subscribes it returns early while a
     *  code is being entered, after the previous listener has been unsubscribed,
     *  so in that state no event has any effect. Otherwise a sign-in with a
     *  session re-runs the check and a sign-out returns to the login dialog. */
    method OnAuthEvent(event: AuthEvent, lookup: AuthLookup, adminEmail: Option<string>)
      requires Valid()
      modifies this
      ensures Valid()
      ensures old(state) == VerifyOtp ==>
        state == old(state) && loading == old(loading) && sentHome == old(sentHome)
      ensures old(state) != VerifyOtp && event.SignedOut? ==>
        state == Login && loading == old(loading) && sentHome == old(sentHome)
      ensures old(state) != VerifyOtp && event.SignedIn? && event.hasSession ==>
        state == CheckAuth(old(state), lookup, adminEmail) && !loading
      ensures !event.SignedOut? && !(event.SignedIn? && event.hasSession) ==>
        state == old(state) && loading == old(loading) && sentHome == old(sentHome)
    {
      if state == VerifyOtp {
        return;
      }
      if event.SignedIn? && event.hasSession {
        RunCheck(lookup, adminEmail);
      } else if event.SignedOut? {
        state := Login;
      }
    }

    /** `onProceed` of the send dialog. */
    method Proceed()
      requires Valid()
      modifies this
      ensures Valid()
      ensures state == VerifyOtp && loading == old(loading) && sentHome == old(sentHome)
    {
      state := VerifyOtp;
    }

    /** `handleOtpSuccess`. */
    method OtpSucceeded()
      requires Valid()
      modifies this
      ensures Valid()
      ensures state == Unlocked && loading == old(loading) && sentHome == old(sentHome)
    {
      state := Unlocked;
    }
  }

  /** The dashboard is rendered exactly when the gate is unlocked and done loading. */
  lemma DashboardOnlyWhenUnlocked(g: AdminGate)
    requires g.Valid()
    ensures Render(g.state, g.loading) == Dashboard <==> g.state == Unlocked && !g.loading
  {
  }

  // ---------------------------------------------------------------------------
  // The send-code dialog

  /** What a call to send-otp gave: its `success` and `waitSeconds`, or a thrown error. */
  datatype SendReply = SendReplied(success: bool, waitSeconds: Option<int>) | SendThrew

  /** The JSON body send-otp writes for a response. */
  function SendReplyOf(resp: AdminOtp.SendResponse): SendReply
  {
    SendReplied(resp.Sent?, if resp.Cooldown? then Some(resp.waitSeconds) else None)
  }

  /** The new cooldown after a reply, or `None` to keep the current one. */
  function CooldownAfter(reply: SendReply): Option<int>
  {
    if reply.SendReplied? && !reply.success && reply.waitSeconds.Some? && reply.waitSeconds.value != 0
    then Some(reply.waitSeconds.value)
    else None
  }

  class SendOtpDialog {
    var loading: bool
    var cooldown: int

    constructor()
      ensures !loading && cooldown == 0
    {
      loading := false;
      cooldown := 0;
    }

    predicate ButtonDisabled()
      reads this
    {
      loading || cooldown > 0
    }

    /** One second of the cooldown timer, which runs while the cooldown is positive. */
    method Tick()
      requires cooldown > 0
      modifies this
      ensures cooldown == old(cooldown) - 1 && loading == old(loading)
    {
      cooldown := cooldown - 1;
    }

    /** `ticks` seconds of the effect: it re-arms its one-second timer while the
     *  cooldown is positive and stops once it reaches 0. */
    method RunCooldown(ticks: nat)
      modifies this
      ensures cooldown == CooldownAfterTicks(old(cooldown), ticks) && loading == old(loading)
    {
      var t := 0;
      while t < ticks && cooldown > 0
        invariant t <= ticks
        invariant CooldownAfterTicks(old(cooldown), ticks) == CooldownAfterTicks(cooldown, ticks - t)
        invariant loading == old(loading)
      {
        Tick();
        t := t + 1;
      }
    }

    /** `handleSendEmailOTP`: proceeds on success, otherwise adopts a server wait time. */
    method Send(reply: SendReply) returns (proceed: bool)
      modifies this
      ensures proceed <==> reply.SendReplied? && reply.success
      ensures !loading
      ensures cooldown == (if CooldownAfter(reply).Some? then CooldownAfter(reply).value else old(cooldown))
    {
      loading := true;
      proceed := false;
      if reply.SendReplied? {
        if reply.success {
          proceed := true;
        } else if reply.waitSeconds.Some? && reply.waitSeconds.value != 0 {
          cooldown := reply.waitSeconds.value;
        }
      }
      loading := false;
    }
  }

  /** A cooldown answer from send-otp disables the button for its wait time; any
   *  other answer leaves the cooldown alone. */
  lemma ServerCooldownAdopted(resp: AdminOtp.SendResponse)
    ensures resp.Cooldown? && resp.waitSeconds != 0 ==> CooldownAfter(SendReplyOf(resp)) == Some(resp.waitSeconds)
    ensures !resp.Cooldown? ==> CooldownAfter(SendReplyOf(resp)).None?
    ensures SendReplyOf(resp).success <==> resp.Status() == 200
  {
  }

  // ---------------------------------------------------------------------------
  // The verify-code dialog

  const CodeLength := 6
  const ResendCooldownSeconds := 60

  /** `/^[0-9]*$/.test(val)`. */
  predicate DigitsOnly(val: string) { AllDigits(val) }

  /** `code.split("")`, then `newCode[index] = val`, then `join("")`: past the end the
   *  array grows with holes, which join as empty text. */
  function SetAt(code: string, index: nat, val: string): (r: string)
    ensures index < |code| ==> |r| == |code| - 1 + |val| && r[..index] == code[..index] && r[index..index + |val|] == val
    ensures index >= |code| ==> r == code + val
  {
    if index < |code| then code[..index] + val + code[index + 1..] else code + val
  }

  /** Typing digits keeps the code digits-only and at most six long. */
  lemma {:induction false} TypingKeepsCodeShort(code: string, index: nat, val: string)
    requires AllDigits(code) && |code| <= CodeLength && index < CodeLength
    requires DigitsOnly(val) && |val| <= 1
    ensures AllDigits(SetAt(code, index, val)) && |SetAt(code, index, val)| <= CodeLength
  {
    var r := SetAt(code, index, val);
    if index < |code| {
      assert r == code[..index] + val + code[index + 1..];
      assert AllDigits(code[..index]) && AllDigits(code[index + 1..]);
      AllDigitsAppend(code[..index], val);
      AllDigitsAppend(code[..index] + val, code[index + 1..]);
    } else {
      AllDigitsAppend(code, val);
    }
  }

  /** A digit typed into a box beyond the code's end lands at the end of the code,
   *  not in that box; clearing a box shifts every later digit one box left. */
  lemma BoxPositionsShift(code: string, index: nat, digit: char)
    ensures index >= |code| ==> |SetAt(code, index, [digit])| == |code| + 1
                                && SetAt(code, index, [digit])[|code|] == digit
    ensures index < |code| ==> |SetAt(code, index, "")| == |code| - 1
    ensures index < |code| ==> forall k :: index <= k < |code| - 1 ==> SetAt(code, index, "")[k] == code[k + 1]
  {
    if index < |code| {
      var r := SetAt(code, index, "");
      assert r == code[..index] + code[index + 1..];
    }
  }

  /** The box focused after typing. */
  function FocusAfterTyping(index: nat, val: string): Option<nat>
  {
    if val != "" && index < 5 then Some(index + 1) else None
  }

  /** `replace(/\D/g, "")`: the digits of `s`, in order. */
  function KeepDigits(s: string): (r: string)
    ensures AllDigits(r) && |r| <= |s|
  {
    if s == [] then [] else (if IsDigit(s[0]) then [s[0]] else []) + KeepDigits(s[1..])
  }

  /** Keeping digits distributes over concatenation. */
  lemma {:induction false} KeepDigitsAppend(a: string, b: string)
    ensures KeepDigits(a + b) == KeepDigits(a) + KeepDigits(b)
  {
    if a != [] {
      assert (a + b)[0] == a[0];
      assert (a + b)[1..] == a[1..] + b;
      KeepDigitsAppend(a[1..], b);
    } else {
      assert a + b == b;
    }
  }

  /** A digit string is kept whole, and only digit strings are. */
  lemma {:induction false} KeepDigitsIdentity(s: string)
    ensures KeepDigits(s) == s <==> AllDigits(s)
  {
    if s != [] {
      KeepDigitsIdentity(s[1..]);
      if !IsDigit(s[0]) {
        assert |KeepDigits(s)| < |s|;
      }
    }
  }

  /** The pasted text after `slice(0, 6)` and the digit filter. */
  function PastedCode(text: string): (code: string)
    ensures AllDigits(code) && |code| <= CodeLength
  {
    KeepDigits(text[..Min(|text|, CodeLength)])
  }

  /** A paste keeps only digits from the first six characters, so a six-digit code
   *  pastes as itself and characters after the sixth are never read. */
  lemma PasteReadsSixCharacters(text: string, more: string)
    ensures |text| >= CodeLength ==> PastedCode(text + more) == PastedCode(text)
    ensures AllDigits(text) && |text| == CodeLength ==> PastedCode(text) == text
  {
    if |text| >= CodeLength {
      assert (text + more)[..CodeLength] == text[..CodeLength];
    }
    if AllDigits(text) && |text| == CodeLength {
      assert text[..CodeLength] == text;
      KeepDigitsIdentity(text);
    }
  }

  /** The box focused after a paste: `min(length, 5)`. */
  function FocusAfterPaste(code: string): (i: nat)
    ensures i <= 5 && (|code| < 5 ==> i == |code|)
  {
    Min(|code|, 5)
  }

  /** What a call to verify-otp gave: its `success`, or a thrown error. */
  datatype VerifyReply = VerifyReplied(success: bool) | VerifyThrew

  class VerifyOtpDialog {
    var code: string
    var loading: bool
    var resendCooldown: int

    constructor()
      ensures code == "" && !loading && resendCooldown == ResendCooldownSeconds
    {
      code := "";
      loading := false;
      resendCooldown := ResendCooldownSeconds;
    }

    predicate SubmitEnabled()
      reads this
    {
      !loading && |code| == CodeLength
    }

    predicate ResendEnabled()
      reads this
    {
      resendCooldown <= 0
    }

    /** One second of the resend timer, which runs while the cooldown is positive. */
    method Tick()
      requires resendCooldown > 0
      modifies this
      ensures resendCooldown == old(resendCooldown) - 1 && code == old(code) && loading == old(loading)
    {
      resendCooldown := resendCooldown - 1;
    }

    /** `ticks` seconds of the resend effect, which re-arms its one-second timer
     *  while the cooldown is positive. */
    method RunResendCooldown(ticks: nat)
      modifies this
      ensures resendCooldown == CooldownAfterTicks(old(resendCooldown), ticks)
      ensures code == old(code) && loading == old(loading)
    {
      var t := 0;
      while t < ticks && resendCooldown > 0
        invariant t <= ticks
        invariant CooldownAfterTicks(old(resendCooldown), ticks) == CooldownAfterTicks(resendCooldown, ticks - t)
        invariant code == old(code) && loading == old(loading)
      {
        Tick();
        t := t + 1;
      }
    }

    /** `onChange` of box `index`: non-digit input is ignored. */
    method Type(index: nat, val: string) returns (focus: Option<nat>)
      requires index < CodeLength
      modifies this
      ensures DigitsOnly(val) ==> code == SetAt(old(code), index, val) && focus == FocusAfterTyping(index, val)
      ensures !DigitsOnly(val) ==> code == old(code) && focus.None?
      ensures loading == old(loading) && resendCooldown == old(resendCooldown)
    {
      if !DigitsOnly(val) {
        return None;
      }
      code := SetAt(code, index, val);
      focus := FocusAfterTyping(index, val);
    }

    /** `onPaste`: an empty result changes nothing. */
    method Paste(text: string) returns (focus: Option<nat>)
      modifies this
      ensures PastedCode(text) != "" ==> code == PastedCode(text) && focus == Some(FocusAfterPaste(code))
      ensures PastedCode(text) == "" ==> code == old(code) && focus.None?
      ensures loading == old(loading) && resendCooldown == old(resendCooldown)
    {
      var pasted := PastedCode(text);
      focus := None;
      if pasted != "" {
        code := pasted;
        focus := Some(FocusAfterPaste(pasted));
      }
    }

    /** `handleVerify`: success unlocks; a refusal clears the code; an exception keeps it. */
    method Verify(reply: VerifyReply) returns (unlocked: bool)
      modifies this
      ensures unlocked <==> reply == VerifyReplied(true)
      ensures reply == VerifyReplied(false) ==> code == ""
      ensures reply != VerifyReplied(false) ==> code == old(code)
      ensures !loading && resendCooldown == old(resendCooldown)
    {
      loading := true;
      unlocked := false;
      if reply.VerifyReplied? {
        if reply.success {
          unlocked := true;
        } else {
          code := "";
        }
      }
      loading := false;
    }

    /** `handleResend`: success restarts the 60 s cooldown, a refusal adopts the
     *  server's wait time when it gives one. */
    method Resend(reply: SendReply)
      modifies this
      ensures reply.SendReplied? && reply.success ==> resendCooldown == ResendCooldownSeconds
      ensures CooldownAfter(reply).Some? ==> resendCooldown == CooldownAfter(reply).value
      ensures !(reply.SendReplied? && reply.success) && CooldownAfter(reply).None? ==> resendCooldown == old(resendCooldown)
      ensures code == old(code) && loading == old(loading)
    {
      if reply.SendReplied? {
        if reply.success {
          resendCooldown := ResendCooldownSeconds;
        } else if reply.waitSeconds.Some? && reply.waitSeconds.value != 0 {
          resendCooldown := reply.waitSeconds.value;
        }
      }
    }
  }

  /** A cooldown after `ticks` seconds of its timer, which takes one off per
   *  second while it is positive (`RunCooldown`, `RunResendCooldown`). */
  function CooldownAfterTicks(cooldown: int, ticks: nat): int
  {
    if ticks == 0 || cooldown <= 0 then cooldown else CooldownAfterTicks(cooldown - 1, ticks - 1)
  }

  /** A button waiting on a cooldown of `n` stays disabled for exactly `n` ticks. */
  lemma {:induction false} CooldownRunsOut(cooldown: nat, ticks: nat)
    ensures CooldownAfterTicks(cooldown, ticks) == Max(cooldown - ticks, 0)
    ensures CooldownAfterTicks(cooldown, ticks) <= 0 <==> ticks >= cooldown
  {
    if ticks > 0 && cooldown > 0 {
      CooldownRunsOut(cooldown - 1, ticks - 1);
    }
  }
}
