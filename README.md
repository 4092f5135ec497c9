# Botishe payment bot — a Dafny model of its order and conversation state machine

Botishe is a Telegram bot that sells a one-month subscription for 169 roubles.
Payment goes through the Platega gateway. When the gateway confirms a payment by webhook,
the bot asks the buyer for a login and a password. It forwards both to an administrator.
The administrator then presses a "done" button that tells the buyer the subscription is ready.

The model covers the part of `bot.js` that keeps state:

- the order store `dataStore.payments`, a map from order id to a payment record;
- the conversation states `userStates`, a map from chat id to the buyer's step;
- the handlers that change them: the `pay` button, the gateway webhook, the chat-message handler,
  `/start`, the `menu` button and the administrator-only `complete_<id>` button.

`BotCore` is a class whose two map fields the handler methods update in place,
as the JavaScript globals are.
Each outgoing Telegram message is returned as an `Intent` value instead of being sent.
Clock readings, the gateway's reply and the decoded `custom` payload are parameters.

Modules:

- `Wrappers`: `Option`.
- `Strings`: JavaScript's decimal rendering of numbers and `String.prototype.trim`, with a decimal parser
  that inverts the rendering.
- `Orders`: payment records, the key a new order is stored under, the effect of a confirmation,
  buyer resolution and webhook authentication.
- `Conversation`: conversation steps, the buyer's contact string, the `complete_` button data and the
  administrator check.
- `Bot`: the `BotCore` class and two end-to-end client methods.

The class keeps a ghost set of every (buyer, order) pair a webhook has confirmed.
Its invariant `Valid()` says every buyer in credential collection got there through such a confirmation.
`Start`, `Menu`, `OnCallback`, `OnMessage` and `Webhook` each state that they preserve it.

`bot.js` does no more reconciliation than the webhook handler shows, and the model does no more either:

- there is no guard against a confirmation delivered twice: a redelivered CONFIRMED is acted on again (`Bot.RedeliveryRestartsConversation`);
- there is no amount-based or alias matching: the buyer comes from `custom` or from the record under `order_id`, nothing else;
- the status is compared case-sensitively with `CONFIRMED`;
- CANCELED, FAILED, EXPIRED and every other status are acknowledged and ignored;
- an unmatched confirmation leaves no record;
- payments are created through a single gateway endpoint, with no fallback and no status lookup.

## Model

| member | source | states |
|---|---|---|
| `Strings.NatToString` | bot.js:129 | a millisecond timestamp renders as a non-empty string of decimal digits, one digit exactly when it is below 10 |
| `Strings.IntToString` | bot.js:129 | a chat id renders as digits with a leading '-' exactly when it is negative |
| `Strings.ParseIntToString` | bot.js:244-246 | the decimal string of a chat id reads back as that chat id, so the rendering is injective |
| `Strings.Trim` | bot.js:272 | `trim()` yields an infix of its input with no whitespace at either end and only whitespace removed around it |
| `Strings.TrimIdempotent` | bot.js:272 | trimming twice is trimming once |
| `Orders.LocalOrderId` | bot.js:129 | the locally generated order id starts with `order_` |
| `Orders.LocalOrderIdInjective` | bot.js:129 | two local order ids are equal only for the same chat and the same millisecond |
| `Orders.PaymentKey` | bot.js:153 | the pending record goes under the gateway's non-empty `order_id`, otherwise under the local id; the key is never empty |
| `Orders.PendingRecord` | bot.js:153-158 | the record written by `pay` is pending, holds amount 169 and this buyer, is stamped with the creation time and has no paidAt |
| `Orders.MarkPaid` | bot.js:332-334 | a confirmation makes the record paid with paidAt = now; chatId, amount and created are kept, or absent when the record is new; every other key is unchanged |
| `Orders.ResolveBuyer` | bot.js:316-329 | the buyer is the decoded custom chat id when present, else the chat id stored with the order, else nobody |
| `Orders.ConfirmedBuyer` | bot.js:313-331 | only a status of exactly `CONFIRMED` can resolve a buyer; any buyer found is the custom chat id or the order's stored chat id |
| `Orders.OnlyExactConfirmedActs` | bot.js:315 | `confirmed`, `Confirmed`, `CANCELED`, `FAILED`, `EXPIRED` or no status resolve nobody |
| `Orders.RedeliveredConfirmation` | bot.js:331-344 | a second delivery of the same confirmation resolves the same buyer and leaves the store as a single delivery at the later time would |
| `Orders.StoredOrderResolvesToPayer` | bot.js:327-329 | a confirmation without a custom payload, for the key `pay` stored, is attributed to the buyer who paid |
| `Conversation.ContactString` | bot.js:272 | the contact is `@username` when a username exists, otherwise `first + " " + last` with exactly its surrounding whitespace removed |
| `Conversation.HasUsername` | bot.js:272 | `user.username` is truthy: present and non-empty |
| `Conversation.IsCommand` | bot.js:258 | `text && text.startsWith('/')`: a present text whose first character is '/' |
| `Conversation.IsCompleteData` | bot.js:238 | `data.startsWith('complete_')` |
| `Conversation.CompleteData` | bot.js:284 | the "done" button data `complete_<chatId>` starts with the `complete_` prefix |
| `Conversation.IsAdmin` | bot.js:239 | `chatId.toString() === ADMIN_ID`, never true while ADMIN_ID is unset |
| `Orders.HasPaymentUrl` | bot.js:145 | `response.data && response.data.payment_url` is truthy: a present, non-empty link |
| `Orders.Authenticated` | bot.js:305-308 | `x-merchantid` and `x-secret` both strictly equal the shop id and API key, an unset value being undefined on either side |
| `Conversation.ContactOfFirstName` | bot.js:272 | with no username and only a first name without surrounding whitespace, the contact is that first name |
| `Conversation.ContactOfFullName` | bot.js:272 | with no username, first and last names without surrounding whitespace give the contact `first last` |
| `Conversation.CompleteTarget` | bot.js:244 | removing the `complete_` prefix yields the rest of the button data |
| `Conversation.CompleteTargetOfData` | bot.js:284 | the button sent with the credentials names the buyer's own chat id, which reads back as that chat |
| `Conversation.AdminIsUnique` | bot.js:239 | at most one chat passes the administrator check |
| `Bot.BotCore.constructor` | bot.js:42-44 | the store starts from the loaded snapshot and there are no conversations |
| `Bot.BotCore.Start` | bot.js:87-91 | `/start` removes only this buyer's conversation and shows the menu |
| `Bot.BotCore.Menu` | bot.js:235-237 | `menu` removes only this buyer's conversation and shows the menu |
| `Bot.BotCore.Pay` | bot.js:119-170 | with a non-empty payment_url the pending record is stored under PaymentKey and the link is offered; otherwise the store is unchanged and a failure is reported |
| `Bot.BotCore.Complete` | bot.js:238-251 | a non-administrator gets only a permission-denied message; the administrator notifies the user named after the prefix and is told so |
| `Bot.BotCore.OnCallback` | bot.js:93-252 | button dispatch: only `pay` touches the store and only `menu` touches the conversations; each button's messages |
| `Bot.BotCore.OnMessage` | bot.js:254-298 | commands and buyers without a state change nothing; the login step records the text and asks for the password; the password step sends one administrator notification with login, password and `complete_<chatId>` and deletes the state |
| `Bot.BotCore.Webhook` | bot.js:300-353 | wrong headers give 401 and change nothing; otherwise 200, and only a resolved exact CONFIRMED marks the order paid and puts the buyer into the login step for that order |
| `Bot.PurchaseFlow` | bot.js:119-353 | pay, confirm by stored order, send login and password, press done: the order ends paid with its creation fields, the administrator sees the credentials and the buyer is notified under their own chat id |
| `Bot.RedeliveryRestartsConversation` | bot.js:331-344 | the same confirmation twice moves paidAt and sends the buyer back to the login step, discarding a captured login |

## Left out

- Telegram transport: message text, photos and their fallbacks, keyboards and `answerCallbackQuery` (bot.js:52-85, 97-118, 171-234). These are reduced to `Intent` values.
- The Express server and HTTP plumbing (bot.js:14-17, 355-362). The webhook is a method from headers and body to a status code and a new state. The header names are taken as Express gives them, already lower-case.
- The gateway call (bot.js:137-143) is a foreign network call. Its outcome is the `GatewayReply` parameter, and a thrown transport error is the reply with no payment_url.
- File persistence, `loadData` and `saveData` (bot.js:21-40). The constructor takes the loaded snapshot. A failed save never affects the in-memory maps, so saving is not modelled.
- `JSON.stringify`/`JSON.parse` of `custom` (bot.js:134, 320-324). The webhook body carries the decoding's outcome as an optional chat id.
- `Date.now()`: each of its readings is a parameter. `pay` reads the clock twice, once for the local order id and once for `created`.
- JavaScript truthiness where it matters: an empty payment_url, order_id, username or message text counts as absent, as the code treats it. A chat id of 0 cannot occur because `ChatId` excludes it, and Telegram never issues it.
- `dataStore.payments` is a plain JavaScript object, but the model treats it as a map. A webhook `order_id` naming an inherited property is therefore modelled as an ordinary new key, which the source does not do:
  - for `__proto__`, bot.js:332 finds `Object.prototype` and lines 333-334 write `status: 'paid'` and `paidAt` onto it, so no entry is added and every object inherits them;
  - for `constructor` or `toString`, the inherited function is marked paid, and the saved snapshot leaves it out.

  This is a latent prototype-pollution defect of the source.
- A webhook `order_id` that is missing or not a string becomes a property key by JavaScript coercion, for example `"undefined"`. The model takes the key as a string.
- `Bot.BotCore.Start`: `bot.onText(/\/start/)` fires for any text containing `/start`, and the message handler sees the same message. The model treats `/start` as its own event and does not model that dispatch.
- Logging and the webhook's outer `catch`, which answers 200. None of the modelled steps can throw.
- Async interleaving between handlers: each event is atomic.
