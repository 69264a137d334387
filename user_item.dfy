/**
  The chat-list row of components/indox/UserItem.jsx: the preview of the last
  message, the time label's bucket, the unread badge and the name fallback.
 */
module UserItem {
  import opened Js

  const DefaultMaxLength: nat := 30

  /** `truncateMessage(text, maxLength = 30)`. */
  function TruncateMessage(text: Option<string>, maxLength: nat := DefaultMaxLength): (r: string)
    ensures !Truthy(text) ==> r == ""
    ensures Truthy(text) && |text.value| <= maxLength ==> r == text.value
    ensures Truthy(text) && |text.value| > maxLength ==>
              |r| == maxLength + 3 && r[..maxLength] == text.value[..maxLength] && r[maxLength..] == "..."
  {
    if !Truthy(text) then ""
    else if |text.value| <= maxLength then text.value
    else text.value[..maxLength] + "..."
  }

  /** A truncated preview is never longer than the limit plus the ellipsis, and never blank for a message. */
  lemma TruncateBounds(text: Option<string>, maxLength: nat)
    ensures |TruncateMessage(text, maxLength)| <= maxLength + 3
    ensures Truthy(text) && maxLength > 0 ==> TruncateMessage(text, maxLength) != ""
  {
  }

  /** The preview line: `truncateMessage(lastMessage) || 'Start a conversation...'`. */
  function Preview(lastMessage: Option<string>): (r: string)
    ensures !Truthy(lastMessage) ==> r == "Start a conversation..."
    ensures Truthy(lastMessage) ==> r == TruncateMessage(lastMessage)
    ensures r != ""
  {
    var t := TruncateMessage(lastMessage);
    if t == "" then "Start a conversation..." else t
  }

  /** The row's title: `userInfo?.name || 'Unknown User'`. */
  function DisplayName(name: Option<string>): (r: string)
    ensures r != ""
    ensures Truthy(name) ==> r == name.value
    ensures !Truthy(name) ==> r == "Unknown User"
  {
    Or(name, "Unknown User")
  }

  /** Which kind of label `formatTime` produces. */
  datatype TimeLabel = Blank | TimeOfDay | Yesterday | Weekday | MonthDay

  /** A parsed message time: milliseconds since the epoch, or an invalid date. */
  datatype Instant = At(ms: int) | Invalid

  const HourMs := 3_600_000

  /**
    `formatTime(date)` with nothing for a missing date. Comparing the age in
    whole milliseconds with 24, 48 and 168 hours' worth gives the same answer
    as comparing the hours. An invalid date makes every comparison false.
   */
  function FormatTime(date: Option<Instant>, now: int): (r: TimeLabel)
    ensures date.None? <==> r == Blank
    ensures date == Some(Invalid) ==> r == MonthDay
    ensures date.Some? && date.value.At? ==>
              var age := now - date.value.ms;
              && (r == TimeOfDay <==> age < 24 * HourMs)
              && (r == Yesterday <==> 24 * HourMs <= age < 48 * HourMs)
              && (r == Weekday <==> 48 * HourMs <= age < 168 * HourMs)
              && (r == MonthDay <==> 168 * HourMs <= age)
  {
    match date
    case None => Blank
    case Some(Invalid) => MonthDay
    case Some(At(ms)) =>
      var age := now - ms;
      if age < 24 * HourMs then TimeOfDay
      else if age < 48 * HourMs then Yesterday
      else if age < 168 * HourMs then Weekday
      else MonthDay
  }

  /** The buckets in order of age. */
  function Rank(l: TimeLabel): nat {
    match l
    case Blank => 0
    case TimeOfDay => 1
    case Yesterday => 2
    case Weekday => 3
    case MonthDay => 4
  }

  /** An older message never gets a more recent label. */
  lemma FormatTimeMonotone(t1: int, t2: int, now: int)
    requires t2 <= t1
    ensures Rank(FormatTime(Some(At(t1)), now)) <= Rank(FormatTime(Some(At(t2)), now))
  {
  }

  /** The unread badge: shown for a positive count, `9+` above nine. */
  function Badge(unreadCount: int): (r: Option<string>)
    ensures r.Some? <==> unreadCount > 0
    ensures r.Some? && unreadCount > 9 ==> r.value == "9+"
    ensures r.Some? && unreadCount <= 9 ==> |r.value| == 1 && r.value[0] as int - '0' as int == unreadCount
  {
    if unreadCount <= 0 then None
    else if unreadCount > 9 then Some("9+")
    else Some([('0' as int + unreadCount) as char])
  }
}
