/**
 * The event handlers of bot.js over its two mutable maps: the order store
 * (dataStore.payments) and the per-buyer conversation states (userStates).
 * Every outgoing Telegram message is returned as an Intent instead of sent.
 */
module Bot {
  import opened Wrappers
  import opened Strings
  import opened Orders
  import opened Conversation

  /** A message the bot asks the chat layer to send. */
  datatype Intent =
    | ShowMainMenu(chat: ChatId)
    | ShowPurchaseInfo(chat: ChatId)
    | ShowSupport(chat: ChatId)
    | ShowFaq(chat: ChatId)
    | CreatingPaymentLink(chat: ChatId)
    | OfferPaymentLink(chat: ChatId, url: string)
    | PaymentFailed(chat: ChatId)
    | AskLogin(chat: ChatId)
    | AskPassword(chat: ChatId)
    | AdminNotify(admin: Option<string>, contact: string, buyer: ChatId,
                  login: Option<string>, password: Option<string>, completeData: string)
    | CredentialsReceived(chat: ChatId)
    | PermissionDenied(chat: ChatId)
    | SubscriptionReady(userId: string)
    | BuyerNotified(chat: ChatId, userId: string)

  class BotCore {
    /** PLATEGA_SHOP_ID, PLATEGA_API_KEY and ADMIN_ID; undefined when unset. */
    const shopId: Option<string>
    const apiKey: Option<string>
    const adminId: Option<string>

    var payments: map<string, PaymentRecord>
    var userStates: map<ChatId, ConvState>

    /** Every (buyer, order) pair an authenticated CONFIRMED webhook has acted on. */
    ghost var confirmations: set<(ChatId, string)>

    /** A buyer collects credentials only for an order a webhook confirmed for that buyer. */
    ghost predicate Valid()
      reads this
    {
      forall c :: c in userStates ==> (c, userStates[c].orderId) in confirmations
    }

    /** Start-up: the order store as loaded from the snapshot, no conversations. */
    constructor (shopId: Option<string>, apiKey: Option<string>, adminId: Option<string>,
                 snapshot: map<string, PaymentRecord>)
      ensures Valid()
      ensures this.shopId == shopId && this.apiKey == apiKey && this.adminId == adminId
      ensures payments == snapshot && userStates == map[] && confirmations == {}
    {
      this.shopId, this.apiKey, this.adminId := shopId, apiKey, adminId;
      payments := snapshot;
      userStates := map[];
      confirmations := {};
    }

    /** The /start command: forget the buyer's conversation and show the menu. */
    method Start(chat: ChatId) returns (out: seq<Intent>)
      requires Valid()
      modifies this`userStates
      ensures Valid()
      ensures userStates == old(userStates) - {chat}
      ensures out == [ShowMainMenu(chat)]
    {
      userStates := userStates - {chat};
      out := [ShowMainMenu(chat)];
    }

    /** The "menu" button: the same as /start. */
    method Menu(chat: ChatId) returns (out: seq<Intent>)
      requires Valid()
      modifies this`userStates
      ensures Valid()
      ensures userStates == old(userStates) - {chat}
      ensures out == [ShowMainMenu(chat)]
    {
      userStates := userStates - {chat};
      out := [ShowMainMenu(chat)];
    }

    /**
     * The "pay" button. The gateway's answer to the creation request is the
     * parameter reply; requestedAt is the clock when the local order id was
     * formed and now the clock when the record is written.
     */
    method Pay(chat: ChatId, requestedAt: nat, now: int, reply: GatewayReply) returns (out: seq<Intent>)
      modifies this`payments
      ensures HasPaymentUrl(reply) ==>
                && payments == old(payments)[PaymentKey(reply, chat, requestedAt) := PendingRecord(chat, now)]
                && out == [CreatingPaymentLink(chat), OfferPaymentLink(chat, reply.paymentUrl.value)]
      ensures !HasPaymentUrl(reply) ==>
                payments == old(payments) && out == [CreatingPaymentLink(chat), PaymentFailed(chat)]
    {
      out := [CreatingPaymentLink(chat)];
      if reply.paymentUrl.Some? && reply.paymentUrl.value != "" {
        var key := LocalOrderId(chat, requestedAt);
        if reply.orderId.Some? && reply.orderId.value != "" {
          key := reply.orderId.value;
        }
        payments := payments[key := PaymentRecord(Some(chat), Some(Price), Pending, Some(now), None)];
        out := out + [OfferPaymentLink(chat, reply.paymentUrl.value)];
      } else {
        out := out + [PaymentFailed(chat)];
      }
    }

    /**
     * A "complete_<id>" button. Only the administrator may press it; the
     * buyer named after the prefix is told the subscription is ready.
     */
    method Complete(chat: ChatId, data: string) returns (out: seq<Intent>)
      requires IsCompleteData(data)
      ensures !IsAdmin(adminId, chat) ==> out == [PermissionDenied(chat)]
      ensures IsAdmin(adminId, chat) ==>
                out == [SubscriptionReady(CompleteTarget(data)), BuyerNotified(chat, CompleteTarget(data))]
    {
      if Some(IntToString(chat)) != adminId {
        return [PermissionDenied(chat)];
      }
      var userId := data[|CompletePrefix|..];
      out := [SubscriptionReady(userId), BuyerNotified(chat, userId)];
    }

    /** Every inline button press, dispatched on its callback data. */
    method OnCallback(chat: ChatId, data: string, requestedAt: nat, now: int, reply: GatewayReply)
      returns (out: seq<Intent>)
      requires Valid()
      modifies this`payments, this`userStates
      ensures Valid()
      ensures data == "pay" ==>
                && userStates == old(userStates)
                && (HasPaymentUrl(reply) ==>
                      payments == old(payments)[PaymentKey(reply, chat, requestedAt) := PendingRecord(chat, now)])
                && (!HasPaymentUrl(reply) ==> payments == old(payments))
      ensures data == "menu" ==> payments == old(payments) && userStates == old(userStates) - {chat}
      ensures data != "pay" && data != "menu" ==> payments == old(payments) && userStates == old(userStates)
      ensures data == "pay" ==>
                out == if HasPaymentUrl(reply)
                       then [CreatingPaymentLink(chat), OfferPaymentLink(chat, reply.paymentUrl.value)]
                       else [CreatingPaymentLink(chat), PaymentFailed(chat)]
      ensures data == "menu" ==> out == [ShowMainMenu(chat)]
      ensures data == "buy" ==> out == [ShowPurchaseInfo(chat)]
      ensures data == "support" ==> out == [ShowSupport(chat)]
      ensures data == "faq" ==> out == [ShowFaq(chat)]
      ensures IsCompleteData(data) && !IsAdmin(adminId, chat) ==> out == [PermissionDenied(chat)]
      ensures IsCompleteData(data) && IsAdmin(adminId, chat) ==>
                out == [SubscriptionReady(CompleteTarget(data)), BuyerNotified(chat, CompleteTarget(data))]
      ensures data !in {"buy", "pay", "support", "faq", "menu"} && !IsCompleteData(data) ==> out == []
    {
      if data == "buy" {
        out := [ShowPurchaseInfo(chat)];
      } else if data == "pay" {
        out := Pay(chat, requestedAt, now, reply);
      } else if data == "support" {
        out := [ShowSupport(chat)];
      } else if data == "faq" {
        out := [ShowFaq(chat)];
      } else if data == "menu" {
        out := Menu(chat);
      } else if IsCompleteData(data) {
        out := Complete(chat, data);
      } else {
        out := [];
      }
    }

    /**
     * A chat message. Commands are ignored; otherwise a buyer awaiting the
     * login has it recorded, and a buyer awaiting the password has both
     * forwarded to the administrator and the conversation closed.
     */
    method OnMessage(chat: ChatId, from: User, text: Option<string>) returns (out: seq<Intent>)
      requires Valid()
      modifies this`userStates
      ensures Valid()
      ensures IsCommand(text) || chat !in old(userStates) ==> userStates == old(userStates) && out == []
      ensures !IsCommand(text) && chat in old(userStates) && old(userStates)[chat].AwaitingLogin? ==>
                && userStates == old(userStates)[chat := AwaitingPassword(old(userStates)[chat].orderId, text)]
                && out == [AskPassword(chat)]
      ensures !IsCommand(text) && chat in old(userStates) && old(userStates)[chat].AwaitingPassword? ==>
                && userStates == old(userStates) - {chat}
                && out == [AdminNotify(adminId, ContactString(from), chat, old(userStates)[chat].login, text,
                                       CompleteData(chat)),
                           CredentialsReceived(chat)]
    {
      out := [];
      if text.Some? && |text.value| > 0 && text.value[0] == '/' {
        return;
      }
      if chat in userStates {
        var st := userStates[chat];
        match st {
          case AwaitingLogin(orderId) =>
            userStates := userStates[chat := AwaitingPassword(orderId, text)];
            out := [AskPassword(chat)];
          case AwaitingPassword(_, login) =>
            var contact := ContactString(from);
            out := [AdminNotify(adminId, contact, chat, login, text, CompleteData(chat)), CredentialsReceived(chat)];
            userStates := userStates - {chat};
        }
      }
    }

    /**
     * The gateway's notification. An unauthentic delivery is refused with 401
     * and changes nothing; an authentic one is answered 200, and when it is
     * an exact CONFIRMED that resolves to a buyer, the order is marked paid
     * and the buyer is asked for the login.
     */
    method Webhook(h: Headers, b: WebhookBody, now: int) returns (code: int, out: seq<Intent>)
      requires Valid()
      modifies this
      ensures Valid()
      ensures code == (if Authenticated(shopId, apiKey, h) then 200 else 401)
      ensures !Authenticated(shopId, apiKey, h) || ConfirmedBuyer(b, old(payments)).None? ==>
                && payments == old(payments) && userStates == old(userStates)
                && confirmations == old(confirmations) && out == []
      ensures Authenticated(shopId, apiKey, h) && ConfirmedBuyer(b, old(payments)).Some? ==>
                var buyer := ConfirmedBuyer(b, old(payments)).value;
                && payments == MarkPaid(old(payments), b.orderId, now)
                && userStates == old(userStates)[buyer := AwaitingLogin(b.orderId)]
                && confirmations == old(confirmations) + {(buyer, b.orderId)}
                && out == [AskLogin(buyer)]
    {
      if h.merchantId != shopId || h.secret != apiKey {
        return 401, [];
      }
      out := [];
      if b.status == Some(Confirmed) {
        var chat: Option<ChatId> := None;
        if b.customChat.Some? {
          chat := b.customChat;
        }
        if chat.None? && b.orderId in payments {
          chat := payments[b.orderId].chatId;
        }
        if chat.Some? {
          var rec := if b.orderId in payments then payments[b.orderId]
                     else PaymentRecord(None, None, Pending, None, None);
          rec := rec.(status := Paid);
          rec := rec.(paidAt := Some(now));
          payments := payments[b.orderId := rec];
          out := [AskLogin(chat.value)];
          userStates := userStates[chat.value := AwaitingLogin(b.orderId)];
          confirmations := confirmations + {(chat.value, b.orderId)};
        }
      }
      code := 200;
    }
  }

  /**
   * One purchase end to end: the buyer pays, the gateway confirms the locally
   * keyed order without a custom payload, the buyer sends login and password,
   * and the administrator presses the button that came with them.
   */
  method PurchaseFlow(shop: string, key: string, admin: ChatId, buyer: ChatId, user: User,
                      login: string, password: string, url: string,
                      requestedAt: nat, createdAt: int, paidAt: int)
    returns (notice: seq<Intent>, ready: seq<Intent>, order: PaymentRecord)
    requires url != "" && !IsCommand(Some(login)) && !IsCommand(Some(password))
    ensures order == PaymentRecord(Some(buyer), Some(Price), Paid, Some(createdAt), Some(paidAt))
    ensures notice == [AdminNotify(Some(IntToString(admin)), ContactString(user), buyer,
                                   Some(login), Some(password), CompleteData(buyer)),
                       CredentialsReceived(buyer)]
    ensures ready == [SubscriptionReady(IntToString(buyer)), BuyerNotified(admin, IntToString(buyer))]
  {
    var bot := new BotCore(Some(shop), Some(key), Some(IntToString(admin)), map[]);
    var reply := GatewayReply(Some(url), None);
    var shown := bot.OnCallback(buyer, "pay", requestedAt, createdAt, reply);
    var orderId := LocalOrderId(buyer, requestedAt);
    assert bot.payments == map[orderId := PendingRecord(buyer, createdAt)];
    var body := WebhookBody(Some(Confirmed), orderId, None);
    assert ConfirmedBuyer(body, bot.payments) == Some(buyer);
    var code, asked := bot.Webhook(Headers(Some(shop), Some(key)), body, paidAt);
    assert bot.userStates == map[buyer := AwaitingLogin(orderId)];
    var prompt := bot.OnMessage(buyer, user, Some(login));
    assert bot.userStates == map[buyer := AwaitingPassword(orderId, Some(login))];
    notice := bot.OnMessage(buyer, user, Some(password));
    order := bot.payments[orderId];
    var button := CompleteData(buyer);
    CompleteTargetOfData(buyer);
    assert button[0] == 'c';
    ready := bot.OnCallback(admin, button, requestedAt, createdAt, reply);
  }

  /**
   * The same confirmation delivered twice: the second delivery is acted on
   * again, moving paidAt and sending the buyer back to the login step even
   * after the login was captured.
   */
  method RedeliveryRestartsConversation(shop: string, key: string, buyer: ChatId, orderId: string,
                                        user: User, login: string, t1: int, t2: int)
    returns (captured: ConvState, after: ConvState, record: PaymentRecord, prompts: seq<Intent>)
    requires !IsCommand(Some(login))
    ensures captured == AwaitingPassword(orderId, Some(login))
    ensures after == AwaitingLogin(orderId)
    ensures record.status == Paid && record.paidAt == Some(t2)
    ensures prompts == [AskLogin(buyer)]
  {
    var bot := new BotCore(Some(shop), Some(key), None, map[]);
    var h := Headers(Some(shop), Some(key));
    var b := WebhookBody(Some(Confirmed), orderId, Some(buyer));
    var code, first := bot.Webhook(h, b, t1);
    var asked := bot.OnMessage(buyer, user, Some(login));
    captured := bot.userStates[buyer];
    code, prompts := bot.Webhook(h, b, t2);
    after := bot.userStates[buyer];
    record := bot.payments[orderId];
  }
}
