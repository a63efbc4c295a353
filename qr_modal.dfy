/** The payment dialog (`components/BakongQRModal.jsx`).
 *
 *  While the dialog is open on an unexpired QR it counts the seconds left once
 *  a second and polls `POST /api/bakong/check-payment` every five seconds. A
 *  poll confirms the payment either through the server's `success` or, when
 *  the server asks for it, through a direct call to Bakong from the browser.
 *  The clock is a parameter; the timers are the `Tick` and `Poll` methods of
 *  `PaymentModal`, called by whoever drives them.
 */
module QrModal {
  import opened Common
  import CheckPayment

  /** Period of the countdown and of the payment poll, in milliseconds. */
  const CountdownPeriodMs := 1000
  const PollPeriodMs := 5000
  const NoTime := "--:--"

  /** Whole seconds until `expiration`, never negative. */
  function TimeLeft(expiration: int, now: int): (r: nat)
    ensures expiration - now >= 0 ==> r * 1000 <= expiration - now < r * 1000 + 1000
    ensures expiration - now < 1000 ==> r == 0
  {
    Max(0, (expiration - now) / 1000)
  }

  /** A later clock reading never shows more time left. */
  lemma TimeLeftNeverGrows(expiration: int, now1: int, now2: int)
    requires now1 <= now2
    ensures TimeLeft(expiration, now2) <= TimeLeft(expiration, now1)
  {
    var a, b := expiration - now2, expiration - now1;
    if a >= 0 {
      assert a / 1000 * 1000 <= a <= b < b / 1000 * 1000 + 1000;
    }
  }

  /** `expiration` is truthy: present and not 0. */
  predicate ExpirationSet(expiration: Option<int>)
  {
    expiration.Some? && expiration.value != 0
  }

  /** The time left when the countdown effect runs: `null` when the dialog is
   *  closed or has no expiry. */
  function CountdownStart(isOpen: bool, expiration: Option<int>, now: int): (t: Option<nat>)
    ensures t.None? <==> !isOpen || !ExpirationSet(expiration)
    ensures t.Some? ==> t.value == TimeLeft(expiration.value, now)
  {
    if !isOpen || !ExpirationSet(expiration) then None else Some(TimeLeft(expiration.value, now))
  }

  /** `timeLeft <= 0` in JavaScript, where `null` compares as 0: the time is up or unknown.
   *  It is both the expired overlay's condition and the polling effect's dependency. */
  predicate Expired(timeLeft: Option<nat>)
  {
    timeLeft.None? || timeLeft.value == 0
  }

  /** The polling interval runs: open, with an md5, and time left. */
  predicate PollingActive(isOpen: bool, md5: string, timeLeft: Option<nat>)
  {
    isOpen && md5 != "" && timeLeft.Some? && timeLeft.value > 0
  }

  /** The dialog renders the "QR Expired" overlay. */
  predicate ShowsExpiredOverlay(isOpen: bool, timeLeft: Option<nat>)
  {
    isOpen && Expired(timeLeft)
  }

  /** The overlay and the poll exclude each other, and a closed dialog shows neither. */
  lemma OverlayExcludesPolling(isOpen: bool, md5: string, timeLeft: Option<nat>)
    ensures ShowsExpiredOverlay(isOpen, timeLeft) ==> !PollingActive(isOpen, md5, timeLeft)
    ensures isOpen && md5 != "" ==> (ShowsExpiredOverlay(isOpen, timeLeft) <==> !PollingActive(isOpen, md5, timeLeft))
    ensures !isOpen ==> !ShowsExpiredOverlay(isOpen, timeLeft) && !PollingActive(isOpen, md5, timeLeft)
  {
  }

  // ---------------------------------------------------------------------------
  // formatTime

  /** `formatTime`: minutes, a colon and two-digit seconds, or "--:--". */
  function FormatTime(t: Option<nat>): string
  {
    if t.None? then NoTime
    else NatToString(t.value / 60) + ":" + PadStart(NatToString(t.value % 60), 2, '0')
  }

  /** Reads a displayed time back: `Some(None)` for "--:--", `Some(Some(s))` for `m:ss`. */
  function ParseTime(text: string): Option<Option<nat>>
  {
    if text == NoTime then Some(None)
    else
      var i := IndexOf(text, ':');
      if i == |text| then None
      else
        var m, sec := text[..i], text[i + 1..];
        if m == [] || |sec| != 2 || !AllDigits(m) || !AllDigits(sec) || DigitsValue(sec) >= 60 then None
        else Some(Some(DigitsValue(m) * 60 + DigitsValue(sec)))
  }

  /** The seconds part is always exactly two digits. */
  lemma SecondsWidth(s: nat)
    ensures |PadStart(NatToString(s % 60), 2, '0')| == 2
  {
    var r := s % 60;
    if r < 10 { assert |NatToString(r)| == 1; } else { NatToStringLength(r, 2); }
  }

  /** The display determines the time: reading back a formatted time gives it again. */
  lemma {:induction false} FormatTimeRoundTrip(t: Option<nat>)
    ensures ParseTime(FormatTime(t)) == Some(t)
  {
    if t.Some? {
      var s := t.value;
      var m := NatToString(s / 60);
      var sec := PadStart(NatToString(s % 60), 2, '0');
      var text := m + ":" + sec;
      assert text == m + [':'] + sec;
      assert IsDigit(text[0]);
      assert text != NoTime;
      IndexAfterDigits(m, ':', sec);
      assert text[..|m|] == m;
      assert text[|m| + 1..] == sec;
      SecondsWidth(s);
      PaddedValue(s % 60, 2);
      NatToStringRoundTrip(s / 60);
    }
  }

  // ---------------------------------------------------------------------------
  // One poll

  /** What the browser's direct Bakong call gave, when the server asked for one. */
  datatype ClientOutcome =
    | ClientReplied(responseCode: Option<int>, data: Option<CheckPayment.Transaction>)
    | ClientThrew

  /** The reply of one poll of the check route. `client` is what the fallback call
   *  would give; it is only made when the reply asks for it. */
  datatype PollReply =
    | ServerReply(success: bool, bakongData: Option<CheckPayment.Transaction>,
                  requiresClientCheck: bool, accessToken: string, checkUrl: string,
                  client: ClientOutcome)
    | PollThrew

  /** The argument of `onConfirm`: the transaction's fields (none for a null one)
   *  with the md5 added. */
  datatype Confirmation = Confirmation(data: Option<CheckPayment.Transaction>, md5: string)

  /** The reply asks for, and makes possible, the client-side check. */
  predicate FallbackRequested(reply: PollReply)
  {
    reply.ServerReply? && reply.requiresClientCheck && reply.accessToken != "" && reply.checkUrl != ""
  }

  /** What one poll confirms, if anything. */
  function PollDecision(reply: PollReply, md5: string): (c: Option<Confirmation>)
    ensures c.Some? ==> c.value.md5 == md5 && reply.ServerReply?
  {
    match reply
    case PollThrew => None
    case ServerReply(success, bakongData, _, _, _, client) =>
      if FallbackRequested(reply) then
        match client
        case ClientReplied(code, data) =>
          if code == Some(0) then Some(Confirmation(data, md5)) else None
        case ClientThrew => None
      else if success then Some(Confirmation(bakongData, md5))
      else None
  }

  /** On the fallback path a response code of 0 from Bakong is enough: the server's
   *  `success`, the recipient and the transaction's age are not consulted, and the
   *  server's own verdict is ignored even when it is `success`. */
  lemma FallbackTrustsResponseCode(reply: PollReply, md5: string)
    requires FallbackRequested(reply)
    ensures PollDecision(reply, md5).Some? <==> reply.client.ClientReplied? && reply.client.responseCode == Some(0)
    ensures PollDecision(reply, md5).Some? ==> PollDecision(reply, md5).value.data == reply.client.data
  {
  }

  /** A fallback request without a token or a URL is ignored and `success` decides. */
  lemma IncompleteFallbackUsesSuccess(reply: PollReply, md5: string)
    requires reply.ServerReply? && (reply.accessToken == "" || reply.checkUrl == "")
    ensures PollDecision(reply, md5).Some? <==> reply.success
  {
  }

  /** The body the check route sends for a response (the route never asks for the
   *  client-side check). */
  function RouteReply(resp: CheckPayment.Response): PollReply
  {
    var data :=
      match resp
      case Confirmed(_, tx) => Some(tx)
      case NotConfirmed(_, d, _) => d
      case _ => None;
    ServerReply(resp.Success(), data, false, "", "", ClientThrew)
  }

  /** Polling the check route confirms exactly the route's confirmed transactions,
   *  and passes the transaction on. */
  lemma RouteConfirmationIff(resp: CheckPayment.Response, md5: string)
    ensures PollDecision(RouteReply(resp), md5).Some? <==> resp.Confirmed?
    ensures resp.Confirmed? ==> PollDecision(RouteReply(resp), md5) == Some(Confirmation(Some(resp.tx), md5))
  {
  }

  // ---------------------------------------------------------------------------
  // The dialog's state

  /** The dialog's props (`isOpen`, `md5`, `expiration`), its `timeLeft` state, the
   *  two intervals and the `onConfirm` calls made so far. */
  class PaymentModal {
    var isOpen: bool
    var md5: string
    var expiration: Option<int>
    var timeLeft: Option<nat>
    var countdownRunning: bool
    var pollingRunning: bool
    var confirmations: seq<Confirmation>

    /** The countdown runs only on an open dialog with time left, and the poll
     *  only while the polling condition holds. */
    ghost predicate Valid()
      reads this
    {
      && (countdownRunning ==> isOpen && ExpirationSet(expiration) && timeLeft.Some? && timeLeft.value > 0)
      && (pollingRunning ==> PollingActive(isOpen, md5, timeLeft))
    }

    /** Mounting: both effects run once. */
    constructor(isOpen: bool, md5: string, expiration: Option<int>, now: int)
      ensures Valid()
      ensures this.isOpen == isOpen && this.md5 == md5 && this.expiration == expiration
      ensures timeLeft == CountdownStart(isOpen, expiration, now)
      ensures countdownRunning <==> !Expired(timeLeft)
      ensures pollingRunning <==> PollingActive(isOpen, md5, timeLeft)
      ensures confirmations == []
    {
      this.isOpen := isOpen;
      this.md5 := md5;
      this.expiration := expiration;
      var t := CountdownStart(isOpen, expiration, now);
      timeLeft := t;
      countdownRunning := !Expired(t);
      pollingRunning := PollingActive(isOpen, md5, t);
      confirmations := [];
    }

    /** New props: the countdown effect re-runs when `isOpen` or `expiration`
     *  changed, and the polling effect when `isOpen`, `md5`, the `onConfirm`
     *  callback or the expired flag did. `confirmChanged` says the parent passed a
     *  different callback; a parent that does not memoise its handler passes a new
     *  one on every render, which restarts a poll that a confirmation had stopped. */
    method SetProps(isOpen': bool, md5': string, expiration': Option<int>, confirmChanged: bool, now: int)
      requires Valid()
      modifies this
      ensures Valid()
      ensures isOpen == isOpen' && md5 == md5' && expiration == expiration'
      ensures var restart := old(isOpen) != isOpen' || old(expiration) != expiration';
        && (restart ==> timeLeft == CountdownStart(isOpen', expiration', now) && (countdownRunning <==> !Expired(timeLeft)))
        && (!restart ==> timeLeft == old(timeLeft) && countdownRunning == old(countdownRunning))
      ensures var repoll := old(isOpen) != isOpen' || old(md5) != md5' || confirmChanged
                            || Expired(old(timeLeft)) != Expired(timeLeft);
        && (repoll ==> (pollingRunning <==> PollingActive(isOpen, md5, timeLeft)))
        && (!repoll ==> pollingRunning == old(pollingRunning))
      ensures confirmations == old(confirmations)
    {
      var oldExpired := Expired(timeLeft);
      var repoll := isOpen != isOpen' || md5 != md5' || confirmChanged;
      if isOpen != isOpen' || expiration != expiration' {
        var t := CountdownStart(isOpen', expiration', now);
        timeLeft := t;
        countdownRunning := !Expired(t);
      }
      isOpen := isOpen';
      md5 := md5';
      expiration := expiration';
      if repoll || oldExpired != Expired(timeLeft) {
        pollingRunning := PollingActive(isOpen, md5, timeLeft);
      }
    }

    /** One tick of the countdown interval: recompute the time left and stop at 0;
     *  when the time runs out the polling effect re-runs and stops the poll. */
    method Tick(now: int)
      requires Valid() && countdownRunning
      modifies this
      ensures Valid()
      ensures timeLeft == Some(TimeLeft(old(expiration).value, now))
      ensures countdownRunning <==> timeLeft.value > 0
      ensures timeLeft.value == 0 ==> !pollingRunning
      ensures timeLeft.value > 0 ==> pollingRunning == old(pollingRunning)
      ensures isOpen == old(isOpen) && md5 == old(md5) && expiration == old(expiration)
      ensures confirmations == old(confirmations)
    {
      var diff := TimeLeft(expiration.value, now);
      timeLeft := Some(diff);
      if diff <= 0 {
        countdownRunning := false;
        pollingRunning := PollingActive(isOpen, md5, timeLeft);
      }
    }

    /** One run of the polling interval with the reply it received: a confirmation
     *  stops the poll and calls `onConfirm`. */
    method Poll(reply: PollReply)
      requires Valid() && pollingRunning
      modifies this
      ensures Valid()
      ensures var c := PollDecision(reply, old(md5));
        && (c.Some? ==> !pollingRunning && confirmations == old(confirmations) + [c.value])
        && (c.None? ==> pollingRunning && confirmations == old(confirmations))
      ensures isOpen == old(isOpen) && md5 == old(md5) && expiration == old(expiration)
      ensures timeLeft == old(timeLeft) && countdownRunning == old(countdownRunning)
    {
      var c := PollDecision(reply, md5);
      if c.Some? {
        pollingRunning := false;
        confirmations := confirmations + [c.value];
      }
    }
  }

  /** A confirming poll stops polling, but a re-render that hands the dialog a new
   *  `onConfirm` starts it again while time is left, so a second paid poll calls
   *  `onConfirm` a second time for the same payment. */
  method RerenderConfirmsTwice(m: PaymentModal, reply: PollReply, now: int)
    requires m.Valid() && m.pollingRunning && PollDecision(reply, m.md5).Some?
    modifies m
    ensures m.Valid() && m.pollingRunning
    ensures m.confirmations == old(m.confirmations) + [PollDecision(reply, old(m.md5)).value, PollDecision(reply, old(m.md5)).value]
  {
    m.Poll(reply);
    assert !m.pollingRunning;
    m.SetProps(m.isOpen, m.md5, m.expiration, true, now);
    m.Poll(reply);
    m.SetProps(m.isOpen, m.md5, m.expiration, true, now);
  }

  /** Once the time left reaches 0, neither interval keeps running. */
  lemma ExpiredStopsEverything(m: PaymentModal)
    requires m.Valid() && m.timeLeft == Some(0)
    ensures !m.countdownRunning && !m.pollingRunning
  {
  }
}
