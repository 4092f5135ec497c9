/**
 * The per-buyer credential-collection state of bot.js (userStates) and the
 * pure pieces of the chat handlers: what counts as a command, how the
 * buyer's contact is written for the administrator, the "complete_" button
 * data and who the administrator is.
 */
module Conversation {
  import opened Wrappers
  import opened Strings
  import opened Orders

  /**
   * One entry of userStates. The webhook creates AwaitingLogin; the next
   * message turns it into AwaitingPassword with that message as the login,
   * which is undefined when the message had no text.
   */
  datatype ConvState =
    | AwaitingLogin(orderId: string)
    | AwaitingPassword(orderId: string, login: Option<string>)

  /** The sender of a message, msg.from, as far as bot.js reads it. */
  datatype User = User(username: Option<string>, firstName: Option<string>, lastName: Option<string>)

  /** A message text that the conversation handler ignores: one starting with '/'. */
  predicate IsCommand(text: Option<string>) {
    text.Some? && |text.value| > 0 && text.value[0] == '/'
  }

  /** The user has a username JavaScript treats as present (non-empty). */
  predicate HasUsername(u: User) {
    u.username.Some? && u.username.value != ""
  }

  /**
   * How the buyer is named to the administrator: @username when there is
   * one, else first and last name joined by a space and trimmed.
   */
  function ContactString(u: User): (contact: string)
    ensures HasUsername(u) ==> contact == "@" + u.username.value
    ensures !HasUsername(u) ==>
              IsTrimmed(contact) && |contact| <= |u.firstName.GetOr("")| + 1 + |u.lastName.GetOr("")|
    ensures !HasUsername(u) ==>
              exists i: nat :: PaddedBy(u.firstName.GetOr("") + " " + u.lastName.GetOr(""), contact, i)
  {
    if HasUsername(u) then "@" + u.username.value
    else Trim(u.firstName.GetOr("") + " " + u.lastName.GetOr(""))
  }

  /** A name without surrounding whitespace and no last name is written as just the first name. */
  lemma ContactOfFirstName(first: string, absentUsername: Option<string>)
    requires absentUsername.None? || absentUsername == Some("")
    requires first != [] && IsTrimmed(first)
    ensures ContactString(User(absentUsername, Some(first), None)) == first
    ensures ContactString(User(absentUsername, Some(first), Some(""))) == first
  {
    assert first + " " + "" == first + " ";
    TrimDropsTrailingSpace(first);
  }

  /** First and last name without surrounding whitespace are written as "first last". */
  lemma ContactOfFullName(first: string, last: string, absentUsername: Option<string>)
    requires absentUsername.None? || absentUsername == Some("")
    requires first != [] && last != [] && IsTrimmed(first) && IsTrimmed(last)
    ensures ContactString(User(absentUsername, Some(first), Some(last))) == first + " " + last
  {
    var joined := first + " " + last;
    assert joined[0] == first[0] && joined[|joined| - 1] == last[|last| - 1];
    TrimOfTrimmed(joined);
  }

  const CompletePrefix: string := "complete_"

  /** Callback data of the administrator's "done" button for this buyer. */
  function CompleteData(chat: ChatId): (data: string)
    ensures IsCompleteData(data)
  {
    CompletePrefix + IntToString(chat)
  }

  predicate IsCompleteData(data: string) {
    |data| >= |CompletePrefix| && data[..|CompletePrefix|] == CompletePrefix
  }

  /** data.replace('complete_', '') on data that starts with the prefix: the rest of it. */
  function CompleteTarget(data: string): (userId: string)
    requires IsCompleteData(data)
    ensures CompletePrefix + userId == data
  {
    data[|CompletePrefix|..]
  }

  /** The "done" button names exactly the buyer whose credentials it came with. */
  lemma CompleteTargetOfData(chat: ChatId)
    ensures IsCompleteData(CompleteData(chat))
    ensures CompleteTarget(CompleteData(chat)) == IntToString(chat)
    ensures ParseInt(CompleteTarget(CompleteData(chat))) == Some(chat as int)
  {
    assert CompleteData(chat)[|CompletePrefix|..] == IntToString(chat);
    ParseIntToString(chat);
  }

  /** chatId.toString() === ADMIN_ID, with ADMIN_ID undefined when unset. */
  predicate IsAdmin(adminId: Option<string>, chat: ChatId) {
    adminId == Some(IntToString(chat))
  }

  /** At most one chat passes the administrator check. */
  lemma AdminIsUnique(adminId: Option<string>, a: ChatId, b: ChatId)
    requires IsAdmin(adminId, a) && IsAdmin(adminId, b)
    ensures a == b
  {
    IntToStringInjective(a, b);
  }
}
