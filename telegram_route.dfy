/** The order notification route (`app/api/telegram/route.js`): it checks the
 *  request, builds a Markdown caption and up to ten product photos, records the
 *  order as "pending", and posts the notification to the Telegram Bot API,
 *  marking the order "failed" when the post fails.
 *
 *  The environment, the database's failure and the Bot API's answer are
 *  parameters; the orders table and the requests sent to the Bot API are the
 *  state of `OrderNotifier`.
 */
module TelegramRoute {
  import opened Common

  /** An entry of the request's `items`; `price` is the text JavaScript prints for
   *  the number. */
  datatype OrderItem = OrderItem(name: string, quantity: int, price: string, images: Option<seq<string>>)

  datatype Customer = Customer(id: Option<string>, email: Option<string>)

  datatype Request = Request(phone: Option<string>, items: Option<seq<OrderItem>>, total: string, user: Option<Customer>)

  /** The body as `request.json()` reads it. */
  datatype Body = Unparsable | Parsed(request: Request)

  /** `TELEGRAM_BOT_TOKEN` and `TELEGRAM_CHAT_ID`. */
  datatype Env = Env(token: Option<string>, chatId: Option<string>)

  datatype Response = MissingFields | ServerError | ProcessingFailed | Success
  {
    function Status(): int
    {
      match this
      case MissingFields => 400
      case ServerError => 500
      case ProcessingFailed => 500
      case Success => 200
    }

    function Message(): string
    {
      match this
      case MissingFields => "Missing phone or items"
      case ServerError => "Server error"
      case ProcessingFailed => "Failed to process order"
      case Success => ""
    }
  }

  /** A string is truthy when present and not empty. */
  predicate Truthy(s: Option<string>)
  {
    s.Some? && s.value != ""
  }

  /** `!phone || !items || items.length === 0` lets the request through. */
  predicate ValidRequest(r: Request)
  {
    Truthy(r.phone) && r.items.Some? && r.items.value != []
  }

  /** The bot token: trimmed, then one leading "bot" removed. */
  function CleanToken(raw: Option<string>): (r: Option<string>)
    ensures raw.None? <==> r.None?
    ensures raw.Some? && !StartsWith(Trim(raw.value), "bot") ==> r == Some(Trim(raw.value))
    ensures raw.Some? && StartsWith(Trim(raw.value), "bot") ==> r == Some(Trim(raw.value)[3..])
  {
    if raw.None? then None
    else
      var t := Trim(raw.value);
      if StartsWith(t, "bot") then Some(t[3..]) else Some(t)
  }

  /** A prefix "botbot" loses only its first "bot". */
  lemma TokenStrippedOnce(rest: string)
    requires rest != [] && !IsSpace(rest[|rest| - 1])
    ensures CleanToken(Some("botbot" + rest)) == Some("bot" + rest)
  {
    var s := "botbot" + rest;
    assert TrimStart(s) == s;
    TrimEndDropsSpaces(s, []);
    assert s + [] == s;
    assert s[..3] == "bot";
    assert s[3..] == "bot" + rest;
  }

  function CleanChatId(raw: Option<string>): Option<string>
  {
    if raw.None? then None else Some(Trim(raw.value))
  }

  /** `user?.email || "Guest"`. */
  function CustomerName(user: Option<Customer>): (r: string)
    ensures user.Some? && Truthy(user.value.email) ==> r == user.value.email.value
    ensures !(user.Some? && Truthy(user.value.email)) ==> r == "Guest"
  {
    if user.Some? && Truthy(user.value.email) then user.value.email.value else "Guest"
  }

  /** `- name xquantity ($price)`. */
  function ItemLine(item: OrderItem): string
  {
    "- " + item.name + " x" + IntToString(item.quantity) + " ($" + item.price + ")"
  }

  function ItemLines(items: seq<OrderItem>): (r: seq<string>)
    ensures |r| == |items| && forall i :: 0 <= i < |items| ==> r[i] == ItemLine(items[i])
  {
    seq(|items|, i requires 0 <= i < |items| => ItemLine(items[i]))
  }

  /** The lines joined with "\n". */
  function ItemsList(items: seq<OrderItem>): string
  {
    if items == [] then "" else Join(ItemLines(items), '\n')
  }

  lemma IntToStringNoNewline(i: int)
    ensures '\n' !in IntToString(i)
  {
    var s := if i < 0 then NatToString(-i) else NatToString(i);
    assert forall k :: 0 <= k < |s| ==> IsDigit(s[k]);
    if i < 0 {
      assert IntToString(i) == "-" + s;
    }
  }

  /** Reading the list back line by line gives one line per item, in order, as
   *  long as no name or price holds a line break. */
  lemma ItemsListLines(items: seq<OrderItem>)
    requires items != []
    requires forall i :: 0 <= i < |items| ==> '\n' !in items[i].name && '\n' !in items[i].price
    ensures Split(ItemsList(items), '\n') == ItemLines(items)
  {
    var lines := ItemLines(items);
    forall k | 0 <= k < |lines| ensures '\n' !in lines[k] {
      IntToStringNoNewline(items[k].quantity);
    }
    JoinSplit(lines, '\n');
  }

  /** The caption's text before `trim()`, without the template's first line break
   *  and final indentation. */
  function CaptionBody(customer: string, phone: string, itemsList: string, total: string): string
  {
    "\U{1F4E6} *New Order Received*\n\n\U{1F464} *Customer*: " + customer
      + "\n\U{1F4F1} *Phone*: " + phone
      + "\n\n\U{1F6D2} *Items*:\n" + itemsList
      + "\n\n\U{1F4B0} *Total*: $" + total
  }

  /** The template literal, trimmed. */
  function Caption(r: Request): string
  {
    var items := if r.items.Some? then r.items.value else [];
    var phone := if r.phone.Some? then r.phone.value else "";
    Trim("\n" + CaptionBody(CustomerName(r.user), phone, ItemsList(items), r.total) + "\n    ")
  }

  /** Trimming removes only the template's own line break and indentation, unless
   *  the total itself ends in white space. */
  lemma CaptionIsBody(r: Request)
    requires r.total == [] || !IsSpace(r.total[|r.total| - 1])
    ensures var items := if r.items.Some? then r.items.value else [];
      var phone := if r.phone.Some? then r.phone.value else "";
      Caption(r) == CaptionBody(CustomerName(r.user), phone, ItemsList(items), r.total)
  {
    var items := if r.items.Some? then r.items.value else [];
    var phone := if r.phone.Some? then r.phone.value else "";
    var body := CaptionBody(CustomerName(r.user), phone, ItemsList(items), r.total);
    BodyEnds(CustomerName(r.user), phone, ItemsList(items), r.total);
    TrimTemplate(body);
  }

  /** The body starts with the parcel emoji and ends with the total, or with "$"
   *  when the total is empty. */
  lemma BodyEnds(customer: string, phone: string, itemsList: string, total: string)
    ensures var body := CaptionBody(customer, phone, itemsList, total);
      && body != [] && body[0] == '\U{1F4E6}'
      && body[|body| - 1] == if total == [] then '$' else total[|total| - 1]
  {
    var body := CaptionBody(customer, phone, itemsList, total);
    var head := "\U{1F4E6} *New Order Received*\n\n\U{1F464} *Customer*: ";
    var middle := customer + "\n\U{1F4F1} *Phone*: " + phone + "\n\n\U{1F6D2} *Items*:\n" + itemsList;
    var foot := "\n\n\U{1F4B0} *Total*: $";
    assert body == head + (middle + foot + total);
    assert body == (head + middle + foot) + total;
  }

  /** The template's own line break and indentation go, nothing else does. */
  lemma TrimTemplate(body: string)
    requires body != [] && !IsSpace(body[0]) && !IsSpace(body[|body| - 1])
    ensures Trim("\n" + body + "\n    ") == body
  {
    var s := "\n" + body + "\n    ";
    assert s[1..] == body + "\n    ";
    assert TrimStart(s) == TrimStart(s[1..]);
    assert (body + "\n    ")[0] == body[0];
    assert TrimStart(body + "\n    ") == body + "\n    ";
    TrimEndDropsSpaces(body, "\n    ");
  }

  /** The first image of each item that has images, in item order. */
  function Firsts(items: seq<OrderItem>): seq<string>
  {
    if items == [] then []
    else
      var last := items[|items| - 1];
      Firsts(items[..|items| - 1]) + (if last.images.Some? && |last.images.value| > 0 then [last.images.value[0]] else [])
  }

  /** At most ten entries: `if (mediaGroup.length < 10) push`. */
  function Cap(s: seq<string>): (r: seq<string>)
    ensures |r| == Min(10, |s|) && r == s[..|r|]
  {
    s[..Min(10, |s|)]
  }

  /** The album's photos: the first ten first-images, in item order. */
  method CollectMedia(items: seq<OrderItem>) returns (media: seq<string>)
    ensures media == Cap(Firsts(items))
  {
    media := [];
    var i := 0;
    while i < |items|
      invariant 0 <= i <= |items|
      invariant media == Cap(Firsts(items[..i]))
    {
      var item := items[i];
      assert items[..i + 1][..i] == items[..i];
      if item.images.Some? && |item.images.value| > 0 {
        if |media| < 10 {
          media := media + [item.images.value[0]];
        }
      }
      i := i + 1;
    }
    assert items[..i] == items;
  }

  /** Each photo is the first image of an item, and photos keep the order of the
   *  items they come from. */
  lemma {:induction false} FirstsFromItems(items: seq<OrderItem>)
    ensures |Firsts(items)| <= |items|
    ensures forall k :: 0 <= k < |Firsts(items)| ==>
      exists i :: 0 <= i < |items| && items[i].images.Some? && |items[i].images.value| > 0 && Firsts(items)[k] == items[i].images.value[0]
  {
    if items != [] {
      var init := items[..|items| - 1];
      FirstsFromItems(init);
      forall k | 0 <= k < |Firsts(items)|
        ensures exists i :: 0 <= i < |items| && items[i].images.Some? && |items[i].images.value| > 0 && Firsts(items)[k] == items[i].images.value[0]
      {
        if k < |Firsts(init)| {
          var i :| 0 <= i < |init| && init[i].images.Some? && |init[i].images.value| > 0 && Firsts(init)[k] == init[i].images.value[0];
          assert items[i] == init[i];
        } else {
          assert Firsts(items)[k] == items[|items| - 1].images.value[0];
        }
      }
    }
  }

  /** Two items with the same first image give the same photo twice. */
  lemma PhotosNotDeduplicated(a: OrderItem, b: OrderItem, url: string)
    requires a.images == Some([url]) && b.images == Some([url])
    ensures Cap(Firsts([a, b])) == [url, url]
  {
    assert [a, b][..1] == [a];
    assert [a][..0] == [];
    assert Firsts([a]) == [url];
    assert Firsts([a, b]) == [url, url];
  }

  /** One entry of `sendMediaGroup`'s `media`; the first carries the caption. */
  datatype MediaEntry = MediaEntry(media: string, caption: Option<string>)

  /** The Bot API request: the method's URL and the body's fields. */
  datatype TelegramCall =
    | SendMediaGroup(url: string, chatId: string, entries: seq<MediaEntry>)
    | SendPhoto(url: string, chatId: string, photo: string, caption: string)
    | SendMessage(url: string, chatId: string, text: string)

  function BotUrl(token: string, apiMethod: string): string
  {
    "https://api.telegram.org/bot" + token + "/" + apiMethod
  }

  /** More than one photo goes as an album with the caption on the first photo,
   *  a single photo with `sendPhoto`, and no photo as a text message. */
  function BuildCall(token: string, chatId: string, media: seq<string>, caption: string): (r: TelegramCall)
    ensures r.SendMediaGroup? <==> |media| > 1
    ensures r.SendPhoto? <==> |media| == 1
    ensures r.SendMessage? <==> media == []
    ensures r.SendMediaGroup? ==>
      && r.url == BotUrl(token, "sendMediaGroup") && |r.entries| == |media|
      && (forall k :: 0 <= k < |media| ==> r.entries[k].media == media[k])
      && r.entries[0].caption == Some(caption)
      && (forall k :: 1 <= k < |media| ==> r.entries[k].caption.None?)
    ensures r.SendPhoto? ==> r == SendPhoto(BotUrl(token, "sendPhoto"), chatId, media[0], caption)
    ensures r.SendMessage? ==> r == SendMessage(BotUrl(token, "sendMessage"), chatId, caption)
    ensures r.chatId == chatId
  {
    if |media| > 1 then
      SendMediaGroup(BotUrl(token, "sendMediaGroup"), chatId,
        seq(|media|, k requires 0 <= k < |media| => MediaEntry(media[k], if k == 0 then Some(caption) else None)))
    else if |media| == 1 then SendPhoto(BotUrl(token, "sendPhoto"), chatId, media[0], caption)
    else SendMessage(BotUrl(token, "sendMessage"), chatId, caption)
  }

  /** The orders table's identity column counts from 1, so an inserted row's id is
   *  always truthy and `orderData?.id` holds exactly when the insert worked. */
  type RowId = n: nat | n >= 1 witness 1

  /** A row of the orders table. */
  datatype OrderRow = OrderRow(id: RowId, userId: Option<string>, items: seq<OrderItem>, total: string, phone: string, status: string)

  /** `user?.id || null`. */
  function UserId(user: Option<Customer>): Option<string>
  {
    if user.Some? && Truthy(user.value.id) then user.value.id else None
  }

  /** The notification for a request. */
  function Notification(r: Request, token: string, chatId: string): TelegramCall
  {
    var items := if r.items.Some? then r.items.value else [];
    BuildCall(token, chatId, Cap(Firsts(items)), Caption(r))
  }

  /** Collects the photos with the loop and builds the request. */
  method PrepareNotification(r: Request, token: string, chatId: string) returns (call: TelegramCall)
    requires r.items.Some?
    ensures call == Notification(r, token, chatId)
  {
    var media := CollectMedia(r.items.value);
    call := BuildCall(token, chatId, media, Caption(r));
  }

  /** The row inserted for a valid request. */
  function NewRow(r: Request, id: RowId): OrderRow
    requires ValidRequest(r)
  {
    OrderRow(id, UserId(r.user), r.items.value, r.total, r.phone.value, "pending")
  }

  /** The tables after the route, and its response. */
  datatype Effect = Effect(orders: seq<OrderRow>, nextId: RowId, sent: seq<TelegramCall>, response: Response)

  /** The route, given whether the insert fails, whether the Bot API answers
   *  with a success status, and whether the update marking the order "failed"
   *  goes through (its error is not looked at). */
  function Post(orders: seq<OrderRow>, nextId: RowId, sent: seq<TelegramCall>, body: Body, env: Env,
                dbFails: bool, telegramOk: bool, failedUpdateOk: bool): Effect
  {
    if body.Unparsable? then Effect(orders, nextId, sent, ProcessingFailed)
    else
      var r := body.request;
      if !ValidRequest(r) then Effect(orders, nextId, sent, MissingFields)
      else
        var token := CleanToken(env.token);
        var chatId := CleanChatId(env.chatId);
        if !Truthy(token) || !Truthy(chatId) then Effect(orders, nextId, sent, ServerError)
        else
          Record(orders, nextId, sent, r, Notification(r, token.value, chatId.value), dbFails, telegramOk, failedUpdateOk)
  }

  /** Inserting the order, sending the notification, and marking the order
   *  "failed" when the notification fails; when that update fails the order
   *  stays "pending" and the response is the same. */
  function Record(orders: seq<OrderRow>, nextId: RowId, sent: seq<TelegramCall>, r: Request, call: TelegramCall,
                  dbFails: bool, telegramOk: bool, failedUpdateOk: bool): Effect
    requires ValidRequest(r)
  {
    var row := NewRow(r, nextId);
    var inserted := if dbFails then orders else orders + [row];
    var next := if dbFails then nextId else nextId + 1;
    if telegramOk then Effect(inserted, next, sent + [call], Success)
    else if dbFails then Effect(inserted, next, sent + [call], ProcessingFailed)
    else Effect(if failedUpdateOk then orders + [row.(status := "failed")] else inserted, next, sent + [call], ProcessingFailed)
  }

  /** A request without a phone or without items is refused with 400 before
   *  anything is recorded or sent. */
  lemma ValidationComesFirst(orders: seq<OrderRow>, nextId: RowId, sent: seq<TelegramCall>, r: Request, env: Env,
                             dbFails: bool, telegramOk: bool, failedUpdateOk: bool)
    requires !Truthy(r.phone) || r.items.None? || r.items.value == []
    ensures Post(orders, nextId, sent, Parsed(r), env, dbFails, telegramOk, failedUpdateOk) == Effect(orders, nextId, sent, MissingFields)
    ensures MissingFields.Status() == 400
  {
  }

  /** A token that is missing, empty after trimming, or exactly "bot", or a
   *  missing chat id, gives 500 with nothing recorded or sent. */
  lemma MissingCredentialsFail(orders: seq<OrderRow>, nextId: RowId, sent: seq<TelegramCall>, r: Request, env: Env,
                               dbFails: bool, telegramOk: bool, failedUpdateOk: bool)
    requires ValidRequest(r)
    requires env.token.None? || Trim(env.token.value) == "" || Trim(env.token.value) == "bot" || env.chatId.None?
    ensures Post(orders, nextId, sent, Parsed(r), env, dbFails, telegramOk, failedUpdateOk) == Effect(orders, nextId, sent, ServerError)
  {
    var token := CleanToken(env.token);
    if env.token.Some? && env.chatId.Some? {
      var t := Trim(env.token.value);
      if t == "" {
        assert !StartsWith(t, "bot");
        assert token == Some("");
      } else {
        assert t == "bot";
        assert StartsWith(t, "bot");
        assert |t[3..]| == 0;
        assert token == Some("");
      }
    }
    assert !Truthy(token) || !Truthy(CleanChatId(env.chatId));
  }

  /** With a valid request and credentials, exactly one notification is sent
   *  whatever the database did; the order is recorded "pending" under the user's
   *  id, or null, when the insert works and the notification succeeds; a failed
   *  notification gives 500 and turns the recorded order "failed" when the
   *  update goes through, leaving it "pending" when it does not. */
  lemma NotificationOutcomes(orders: seq<OrderRow>, nextId: RowId, sent: seq<TelegramCall>, r: Request, env: Env,
                             dbFails: bool, telegramOk: bool, failedUpdateOk: bool)
    requires ValidRequest(r) && Truthy(CleanToken(env.token)) && Truthy(CleanChatId(env.chatId))
    ensures var e := Post(orders, nextId, sent, Parsed(r), env, dbFails, telegramOk, failedUpdateOk);
      && |e.sent| == |sent| + 1 && e.sent[..|sent|] == sent
      && (dbFails ==> e.orders == orders && e.nextId == nextId)
      && (!dbFails ==>
            && |e.orders| == |orders| + 1 && e.orders[..|orders|] == orders && e.nextId == nextId + 1
            && e.orders[|orders|].id == nextId && e.orders[|orders|].userId == UserId(r.user)
            && e.orders[|orders|].status == (if telegramOk || !failedUpdateOk then "pending" else "failed"))
      && (e.response == Success <==> telegramOk)
      && (!telegramOk ==> e.response.Status() == 500)
  {
    var call := Notification(r, CleanToken(env.token).value, CleanChatId(env.chatId).value);
    assert Post(orders, nextId, sent, Parsed(r), env, dbFails, telegramOk, failedUpdateOk) == Record(orders, nextId, sent, r, call, dbFails, telegramOk, failedUpdateOk);
    RecordOutcomes(orders, nextId, sent, r, call, dbFails, telegramOk, failedUpdateOk);
  }

  lemma RecordOutcomes(orders: seq<OrderRow>, nextId: RowId, sent: seq<TelegramCall>, r: Request, call: TelegramCall,
                       dbFails: bool, telegramOk: bool, failedUpdateOk: bool)
    requires ValidRequest(r)
    ensures var e := Record(orders, nextId, sent, r, call, dbFails, telegramOk, failedUpdateOk);
      && |e.sent| == |sent| + 1 && e.sent[..|sent|] == sent
      && (dbFails ==> e.orders == orders && e.nextId == nextId)
      && (!dbFails ==>
            && |e.orders| == |orders| + 1 && e.orders[..|orders|] == orders && e.nextId == nextId + 1
            && e.orders[|orders|].id == nextId && e.orders[|orders|].userId == UserId(r.user)
            && e.orders[|orders|].status == (if telegramOk || !failedUpdateOk then "pending" else "failed"))
      && (e.response == Success <==> telegramOk)
      && (!telegramOk ==> e.response.Status() == 500)
  {
    var row := NewRow(r, nextId);
    assert row.id == nextId && row.userId == UserId(r.user) && row.status == "pending";
  }

  class OrderNotifier {
    var orders: seq<OrderRow>
    var nextId: RowId
    /** The requests sent to the Bot API, oldest first. */
    var sent: seq<TelegramCall>

    constructor(orders: seq<OrderRow>, nextId: RowId)
      ensures this.orders == orders && this.nextId == nextId && sent == []
    {
      this.orders := orders;
      this.nextId := nextId;
      sent := [];
    }

    /** `POST`: the route's steps in order. */
    method HandlePost(body: Body, env: Env, dbFails: bool, telegramOk: bool, failedUpdateOk: bool) returns (response: Response)
      modifies this
      ensures Effect(orders, nextId, sent, response) == Post(old(orders), old(nextId), old(sent), body, env, dbFails, telegramOk, failedUpdateOk)
    {
      if body.Unparsable? {
        return ProcessingFailed;
      }
      var r := body.request;
      if !Truthy(r.phone) || r.items.None? || |r.items.value| == 0 {
        return MissingFields;
      }
      var token := CleanToken(env.token);
      var chatId := CleanChatId(env.chatId);
      if !Truthy(token) || !Truthy(chatId) {
        return ServerError;
      }
      var call := PrepareNotification(r, token.value, chatId.value);
      response := RecordAndSend(r, call, dbFails, telegramOk, failedUpdateOk);
    }

    method RecordAndSend(r: Request, call: TelegramCall, dbFails: bool, telegramOk: bool, failedUpdateOk: bool) returns (response: Response)
      requires ValidRequest(r)
      modifies this
      ensures Effect(orders, nextId, sent, response) == Record(old(orders), old(nextId), old(sent), r, call, dbFails, telegramOk, failedUpdateOk)
    {
      var insertedId: Option<RowId> := None;
      var row := NewRow(r, nextId);
      if !dbFails {
        orders := orders + [row];
        insertedId := Some(nextId);
        nextId := nextId + 1;
      }
      sent := sent + [call];
      if !telegramOk {
        if insertedId.Some? && failedUpdateOk {
          orders := orders[|orders| - 1 := row.(status := "failed")];
          assert orders == old(orders) + [row.(status := "failed")];
        }
        return ProcessingFailed;
      }
      response := Success;
    }
  }
}
