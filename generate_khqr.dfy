/** QR generation (`POST /api/bakong/generate-khqr`).
 *
 *  The route counts the stored orders, builds the bill number
 *  `ORDER_<order number, zero-padded to 5>_<timestamp>`, sets an expiry five
 *  minutes out and hands both to `generateKHQR`. The order count, the two clock
 *  readings, the parsed body and the KHQR library (`info -> {qr, md5}` or null)
 *  are inputs.
 */
module GenerateKhqr {
  import opened Common
  import Bakong

  /** QR lifetime in milliseconds. */
  const QrLifetimeMs := 5 * 60 * 1000
  const BillPrefix := "ORDER_"

  /** The request body: `amount` is `None` when absent; `currency` likewise. */
  datatype Request = Request(amount: Option<int>, currency: Option<string>)

  /** The `data` of a successful response. */
  datatype Generated = Generated(orderId: string, qr: string, md5: string, expiration: int, generationTime: nat)

  /** 200 with the QR data and the library call that produced it, or 500 with the error. */
  datatype Outcome =
    | Success(data: Generated, call: Bakong.KhqrCall)
    | Failure(error: string)

  /** The next order number: the count plus one, with a null count read as zero. */
  function OrderNumber(count: Option<nat>): (n: nat)
    ensures n >= 1
    ensures count.None? ==> n == 1
  {
    (if count.Some? then count.value else 0) + 1
  }

  /** The bill number for an order number and a timestamp. */
  function BillNumber(orderNumber: nat, timestamp: nat): string
  {
    BillPrefix + PadStart(NatToString(orderNumber), 5, '0') + "_" + NatToString(timestamp)
  }

  /** Reads a bill number back into its order number and timestamp. */
  function ParseBillNumber(s: string): Option<(nat, nat)>
  {
    if !StartsWith(s, BillPrefix) then None
    else
      var rest := s[|BillPrefix|..];
      var i := IndexOf(rest, '_');
      if i == |rest| then None
      else
        var num, ts := rest[..i], rest[i + 1..];
        if num == [] || ts == [] || !AllDigits(num) || !AllDigits(ts) then None
        else Some((DigitsValue(num), DigitsValue(ts)))
  }

  /** Parsing a well-formed bill number yields the values of its two digit runs. */
  lemma {:induction false} ParseParts(p: string, t: string)
    requires p != [] && t != [] && AllDigits(p) && AllDigits(t)
    ensures ParseBillNumber(BillPrefix + p + "_" + t) == Some((DigitsValue(p), DigitsValue(t)))
  {
    var s := BillPrefix + p + "_" + t;
    var rest := p + "_" + t;
    assert s == BillPrefix + rest;
    assert s[..|BillPrefix|] == BillPrefix;
    assert s[|BillPrefix|..] == rest;
    IndexAfterDigits(p, '_', t);
    assert rest[..|p|] == p;
    assert rest[|p| + 1..] == t;
  }

  /** Every bill number reads back to the order number and timestamp it was built from. */
  lemma {:induction false} BillNumberRoundTrip(n: nat, ts: nat)
    ensures ParseBillNumber(BillNumber(n, ts)) == Some((n, ts))
  {
    PaddedValue(n, 5);
    NatToStringRoundTrip(ts);
    ParseParts(PadStart(NatToString(n), 5, '0'), NatToString(ts));
  }

  /** Zero-padding never truncates: the order number appears in full, with zeros
   *  in front only when it has fewer than five digits. */
  lemma PaddingNeverTruncates(n: nat, ts: nat)
    ensures var s := NatToString(n);
      var b := BillNumber(n, ts);
      |b| == 6 + Max(|s|, 5) + 1 + |NatToString(ts)| &&
      b[6 + Max(|s|, 5) - |s|..6 + Max(|s|, 5)] == s
  {
    PaddedDigits(NatToString(n), NatToString(ts));
  }

  lemma PaddedDigits(s: string, t: string)
    ensures var b := BillPrefix + PadStart(s, 5, '0') + "_" + t;
      |b| == 6 + Max(|s|, 5) + 1 + |t| &&
      b[6 + Max(|s|, 5) - |s|..6 + Max(|s|, 5)] == s
  {
    var p := PadStart(s, 5, '0');
    assert |BillPrefix| == 6 && |p| == Max(|s|, 5);
    SuffixInMiddle(BillPrefix, p, "_", t, s);
  }

  /** A suffix of the second part sits right before the third. */
  lemma SuffixInMiddle(a: string, p: string, c: string, d: string, s: string)
    requires |s| <= |p| && p[|p| - |s|..] == s
    ensures |a + p + c + d| == |a| + |p| + |c| + |d|
    ensures (a + p + c + d)[|a| + |p| - |s|..|a| + |p|] == s
  {
    var b := a + p + c + d;
    assert b[|a|..|a| + |p|] == p;
    assert b[|a| + |p| - |s|..|a| + |p|] == b[|a|..|a| + |p|][|p| - |s|..];
  }

  /** An order number of six digits or more is used unpadded. */
  lemma LongOrderNumbersUnpadded(n: nat, ts: nat)
    requires n >= 100000
    ensures BillNumber(n, ts) == "ORDER_" + NatToString(n) + "_" + NatToString(ts)
  {
    var s := NatToString(n);
    assert Pow10(5) == 100000;
    if |s| < 6 {
      NatToStringRoundTrip(n);
      ShortDigitsBound(s);
    }
    assert PadStart(s, 5, '0') == s;
  }

  /** A string of at most five digits denotes less than 100000. */
  lemma {:induction false} ShortDigitsBound(s: string)
    requires AllDigits(s) && |s| <= 5
    ensures DigitsValue(s) < Pow10(|s|) <= 100000
  {
    if s != [] {
      ShortDigitsBound(s[..|s| - 1]);
    }
    PowMonotone(|s|, 5);
  }

  lemma {:induction false} PowMonotone(i: nat, j: nat)
    requires i <= j
    ensures Pow10(i) <= Pow10(j)
  {
    if i < j { PowMonotone(i, j - 1); }
  }

  /** The message of the `TypeError` thrown by `qrData.qr` when the library
   *  reports a failure and `generateKHQR` hands back its null `data`. */
  const NullQrMessage := "Cannot read properties of null (reading 'qr')"

  /** The arguments the route hands to `generateKHQR`: the bill number from the
   *  count and the first clock reading, the expiry five minutes after the
   *  second, a falsy amount as 0 and a missing currency as "KHR". */
  function RequestCall(count: Option<nat>, t1: nat, t2: nat, req: Request): Bakong.KhqrCall
  {
    Bakong.KhqrCall(
      None, None, None,
      Some(if req.amount.Some? && req.amount.value != 0 then req.amount.value else 0),
      Some(if req.currency.Some? then req.currency.value else "KHR"),
      Some(BillNumber(OrderNumber(count), t1)), None, Some(t2 + QrLifetimeMs))
  }

  /** The route. `count` is the order count (or the query's error); `t1` and `t2`
   *  are the two clock readings, for the timestamp and for the expiry; `body` is
   *  the parsed request body, or the message `request.json()` throws; `khqr` is
   *  the library, whose `data` is null (`None`) when it reports a failure. Every
   *  throw lands in the one catch and becomes a 500 with the error's message. */
  function Generate(count: Result<Option<nat>, string>, t1: nat, t2: nat, body: Result<Request, string>,
                    env: Bakong.BakongEnv, khqr: Bakong.IndividualInfo -> Option<Bakong.QrData>): (r: Outcome)
    ensures count.Err? ==> r == Failure(count.error)
    ensures count.Ok? && body.Err? ==> r == Failure(body.error)
    ensures count.Ok? && body.Ok? ==>
      var call := RequestCall(count.value, t1, t2, body.value);
      (r.Success? <==> khqr(Bakong.KhqrArguments(call, env, t2)).Some?) &&
      (r.Failure? ==> r.error == NullQrMessage) &&
      (r.Success? ==> r.call == call && khqr(Bakong.KhqrArguments(call, env, t2)) == Some(Bakong.QrData(r.data.qr, r.data.md5)))
    ensures r.Success? ==>
      && r.data.orderId == BillNumber(OrderNumber(count.value), t1)
      && r.call.billNumber == Some(r.data.orderId)
      && r.data.generationTime == t1
      && r.data.expiration - r.data.generationTime == QrLifetimeMs + (t2 - t1)
      && r.call.expirationTimestamp == Some(r.data.expiration)
  {
    if count.Err? then Failure(count.error)
    else if body.Err? then Failure(body.error)
    else
      var call := RequestCall(count.value, t1, t2, body.value);
      var qr := khqr(Bakong.KhqrArguments(call, env, t2));
      if qr.None? then Failure(NullQrMessage)
      else Success(Generated(call.billNumber.value, qr.value.qr, qr.value.md5, t2 + QrLifetimeMs, t1), call)
  }

  /** The expiry is read after the timestamp, so it is at least five minutes past the
   *  generation time. */
  lemma ExpirationAfterGeneration(count: Result<Option<nat>, string>, t1: nat, t2: nat, body: Result<Request, string>,
                                  env: Bakong.BakongEnv, khqr: Bakong.IndividualInfo -> Option<Bakong.QrData>)
    requires t1 <= t2
    ensures var r := Generate(count, t1, t2, body, env, khqr);
      r.Success? ==> r.data.expiration >= t1 + 300000
  {
  }

  /** A falsy amount is sent as 0 and a missing currency as "KHR", which selects riel;
   *  the library sees the bill number and expiry of the response. */
  lemma RequestDefaults(count: Option<nat>, t1: nat, t2: nat, env: Bakong.BakongEnv)
    ensures var call := RequestCall(count, t1, t2, Request(None, None));
      var info := Bakong.KhqrArguments(call, env, t2);
      call.amount == Some(0) && info.amount == 0 && info.currency == Bakong.KHR
      && info.billNumber == BillNumber(OrderNumber(count), t1) && info.expirationTimestamp == t2 + 300000
    ensures RequestCall(count, t1, t2, Request(Some(0), None)).amount == Some(0)
  {
  }

  /** The first order of an empty (or uncounted) table is number 1. */
  lemma {:induction false} FirstBillNumber(ts: nat)
    ensures BillNumber(OrderNumber(None), ts) == "ORDER_00001_" + NatToString(ts)
    ensures BillNumber(OrderNumber(Some(0)), ts) == "ORDER_00001_" + NatToString(ts)
  {
    assert NatToString(1) == "1";
    assert PadStart("1", 5, '0') == Repeat('0', 4) + "1";
    assert Repeat('0', 4) == "0000";
  }
}
