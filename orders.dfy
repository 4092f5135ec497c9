/**
 * The order store of bot.js (dataStore.payments) and the pure decisions the
 * payment handlers take over it: which key a new order is stored under, how
 * a confirmation marks an order paid, whom a confirmation belongs to, and
 * whether a webhook delivery is authentic.
 */
module Orders {
  import opened Wrappers
  import opened Strings

  /**
   * A Telegram chat id. Telegram never issues chat id 0, so the JavaScript
   * test `!chatId` coincides with "no chat id" and Option<ChatId> models it.
   */
  type ChatId = c: int | c != 0 witness 1

  /** The fixed price of the one product, in roubles. */
  const Price: int := 169

  /** The one status value bot.js's webhook acts on, compared case-sensitively. */
  const Confirmed: string := "CONFIRMED"

  /** The two statuses bot.js ever writes into a record. */
  datatype Status = Pending | Paid

  /**
   * One entry of dataStore.payments. A record written by the pay branch has
   * every field but paidAt; one the webhook creates from nothing has only
   * status and paidAt.
   */
  datatype PaymentRecord = PaymentRecord(
    chatId: Option<ChatId>,
    amount: Option<int>,
    status: Status,
    created: Option<int>,
    paidAt: Option<int>)

  /**
   * What the gateway's creation call gave back: response.data.payment_url and
   * response.data.order_id. A transport error or a missing response body is
   * the reply with neither field.
   */
  datatype GatewayReply = GatewayReply(paymentUrl: Option<string>, orderId: Option<string>)

  /** The reply carries a payment link that JavaScript treats as present (non-empty). */
  predicate HasPaymentUrl(reply: GatewayReply) {
    reply.paymentUrl.Some? && reply.paymentUrl.value != ""
  }

  /** The order id bot.js generates itself: order_<chatId>_<milliseconds>. */
  function LocalOrderId(chat: ChatId, requestedAt: nat): (k: string)
    ensures |k| >= 9 && k[..6] == "order_"
  {
    "order_" + IntToString(chat) + "_" + NatToString(requestedAt)
  }

  /** Two purchase requests get the same local order id only if they come from the same chat in the same millisecond. */
  lemma LocalOrderIdInjective(c1: ChatId, t1: nat, c2: ChatId, t2: nat)
    requires LocalOrderId(c1, t1) == LocalOrderId(c2, t2)
    ensures c1 == c2 && t1 == t2
  {
    var a1, b1 := IntToString(c1), NatToString(t1);
    var a2, b2 := IntToString(c2), NatToString(t2);
    var k1 := LocalOrderId(c1, t1);
    assert k1 == "order_" + (a1 + ['_'] + b1);
    assert LocalOrderId(c2, t2) == "order_" + (a2 + ['_'] + b2);
    assert a1 + ['_'] + b1 == k1[6..] == a2 + ['_'] + b2;
    SplitAtFirst('_', a1, b1, a2, b2);
    IntToStringInjective(c1, c2);
    NatToStringInjective(t1, t2);
  }

  /**
   * The key the pay branch stores its pending record under: the gateway's
   * order_id when it is a non-empty string, else the locally generated id.
   */
  function PaymentKey(reply: GatewayReply, chat: ChatId, requestedAt: nat): (k: string)
    ensures k != ""
    ensures reply.orderId.Some? && reply.orderId.value != "" ==> k == reply.orderId.value
    ensures reply.orderId.None? || reply.orderId.value == "" ==> k == LocalOrderId(chat, requestedAt)
  {
    match reply.orderId
    case Some(id) => if id != "" then id else LocalOrderId(chat, requestedAt)
    case None => LocalOrderId(chat, requestedAt)
  }

  /** The record the pay branch writes: this buyer, 169, pending, created now. */
  function PendingRecord(chat: ChatId, now: int): (rec: PaymentRecord)
    ensures rec.status == Pending && rec.amount == Some(Price)
    ensures rec.chatId == Some(chat) && rec.created == Some(now) && rec.paidAt.None?
  {
    PaymentRecord(Some(chat), Some(Price), Pending, Some(now), None)
  }

  /**
   * The confirmation's effect on the store: the record under orderId (an
   * empty one when there is none) gets status paid and paidAt now.
   */
  function MarkPaid(payments: map<string, PaymentRecord>, orderId: string, now: int): (r: map<string, PaymentRecord>)
    ensures r.Keys == payments.Keys + {orderId}
    ensures r[orderId].status == Paid && r[orderId].paidAt == Some(now)
    ensures orderId in payments ==>
              && r[orderId].chatId == payments[orderId].chatId
              && r[orderId].amount == payments[orderId].amount
              && r[orderId].created == payments[orderId].created
    ensures orderId !in payments ==>
              r[orderId].chatId.None? && r[orderId].amount.None? && r[orderId].created.None?
    ensures forall k :: k in payments && k != orderId ==> r[k] == payments[k]
  {
    var base := if orderId in payments then payments[orderId]
                else PaymentRecord(None, None, Pending, None, None);
    payments[orderId := base.(status := Paid, paidAt := Some(now))]
  }

  /**
   * The buyer a confirmation belongs to: the chat id decoded from the
   * custom payload when there is one, otherwise the chat id stored with the
   * order, otherwise nobody.
   */
  function ResolveBuyer(decoded: Option<ChatId>, payments: map<string, PaymentRecord>, orderId: string): (buyer: Option<ChatId>)
    ensures decoded.Some? ==> buyer == decoded
    ensures decoded.None? && orderId in payments ==> buyer == payments[orderId].chatId
    ensures decoded.None? && orderId !in payments ==> buyer.None?
  {
    if decoded.Some? then decoded
    else if orderId in payments then payments[orderId].chatId
    else None
  }

  /** The headers of a webhook request that bot.js reads: x-merchantid and x-secret. */
  datatype Headers = Headers(merchantId: Option<string>, secret: Option<string>)

  /**
   * The fields of a webhook body that bot.js reads. customChat is the chat id
   * obtained from JSON-decoding `custom`: None when custom is absent, does
   * not parse, or carries no chat id.
   */
  datatype WebhookBody = WebhookBody(status: Option<string>, orderId: string, customChat: Option<ChatId>)

  /**
   * Both headers equal the configured shop id and API key under JavaScript's
   * strict equality, where an unset value is undefined on either side.
   */
  predicate Authenticated(shopId: Option<string>, apiKey: Option<string>, h: Headers) {
    h.merchantId == shopId && h.secret == apiKey
  }

  /**
   * The buyer whom an (authenticated) webhook delivery confirms a payment
   * for, or None when the delivery has no effect.
   */
  function ConfirmedBuyer(b: WebhookBody, payments: map<string, PaymentRecord>): (buyer: Option<ChatId>)
    ensures b.status != Some(Confirmed) ==> buyer.None?
    ensures b.status == Some(Confirmed) && b.customChat.Some? ==> buyer == b.customChat
    ensures buyer.Some? ==>
              (buyer == b.customChat ||
               (b.customChat.None? && b.orderId in payments && payments[b.orderId].chatId == buyer))
    ensures b.status == Some(Confirmed) && b.customChat.None? && b.orderId in payments ==>
              buyer == payments[b.orderId].chatId
  {
    if b.status == Some(Confirmed) then ResolveBuyer(b.customChat, payments, b.orderId) else None
  }

  /** Only the exact upper-case token acts: other casings and other statuses do nothing. */
  lemma OnlyExactConfirmedActs(b: WebhookBody, payments: map<string, PaymentRecord>)
    requires b.status in {Some("confirmed"), Some("Confirmed"), Some("CANCELED"), Some("FAILED"), Some("EXPIRED"), None}
    ensures ConfirmedBuyer(b, payments).None?
  {
  }

  /**
   * Delivering the same confirmation again resolves the same buyer and
   * leaves the store as one delivery at the later time would: only paidAt
   * moves.
   */
  lemma RedeliveredConfirmation(b: WebhookBody, payments: map<string, PaymentRecord>, t1: int, t2: int)
    requires ConfirmedBuyer(b, payments).Some?
    ensures ConfirmedBuyer(b, MarkPaid(payments, b.orderId, t1)) == ConfirmedBuyer(b, payments)
    ensures MarkPaid(MarkPaid(payments, b.orderId, t1), b.orderId, t2) == MarkPaid(payments, b.orderId, t2)
  {
    var once := MarkPaid(payments, b.orderId, t1);
    var twice := MarkPaid(once, b.orderId, t2);
    var direct := MarkPaid(payments, b.orderId, t2);
    assert twice.Keys == direct.Keys;
    assert twice[b.orderId] == direct[b.orderId];
  }

  /**
   * A confirmation that names an order the pay branch stored, without a
   * usable custom payload, is attributed to the buyer who paid.
   */
  lemma StoredOrderResolvesToPayer(payments: map<string, PaymentRecord>, reply: GatewayReply,
                                   chat: ChatId, requestedAt: nat, now: int, b: WebhookBody)
    requires b.status == Some(Confirmed) && b.customChat.None?
    requires b.orderId == PaymentKey(reply, chat, requestedAt)
    ensures ConfirmedBuyer(b, payments[b.orderId := PendingRecord(chat, now)]) == Some(chat)
  {
  }
}
