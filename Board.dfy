/** Shared vocabulary of the three chat servers: the board message record,
    the Python values it is built from, and the fixed notice texts. */
module Board {

  datatype Option<T> = None | Some(value: T)

  /** A JSON value in a field the servers treat as a string: a string, or
      null (Python's None, which is also what dict.get yields for a missing key). */
  datatype JsonStr = Null | Str(s: string)

  /** Python's f"{v}" of a string-or-None value. */
  function Shown(v: JsonStr): (r: string)
    ensures v.Str? ==> r == v.s
    ensures v.Null? ==> r == "None"
  {
    match v
    case Null => "None"
    case Str(s) => s
  }

  /** Python's dict.get(key, default) on a field that may be absent (None). */
  function GetOr(field: Option<JsonStr>, default: JsonStr): (r: JsonStr)
    ensures field.Some? ==> r == field.value
    ensures field.None? ==> r == default
  {
    match field
    case None => default
    case Some(v) => v
  }

  /** Python truthiness of a string-or-None value: None and "" are false. */
  predicate Truthy(v: JsonStr) {
    v.Str? && v.s != ""
  }

  /** A board entry carries exactly one of the "message" and "image_data" keys. */
  datatype Body = Text(message: JsonStr) | Image(imageData: JsonStr)

  /** One entry of board_messages. `username` is None when the key is absent,
      which only an entry read back from the chat log can be. */
  datatype Message = Message(username: Option<JsonStr>, body: Body, timestamp: string)

  const ServerName := "Server"
  const AiName := "AI Assistant"
  const Anonymous := "Anonymous"

  const JoinSuffix := " が参加しました。"
  const LeaveSuffix := " が退出しました。"

  /** The text of the join notice for `name`. */
  function JoinText(name: string): string { name + JoinSuffix }

  /** The text of the departure notice for `name`. */
  function LeaveText(name: string): string { name + LeaveSuffix }

  /** A notice posted under the reserved "Server" name. */
  function Notice(text: string, at: string): Message {
    Message(Some(Str(ServerName)), Text(Str(text)), at)
  }

  /** A text entry under an explicit sender. */
  function TextFrom(sender: JsonStr, text: JsonStr, at: string): Message {
    Message(Some(sender), Text(text), at)
  }

  /** Is `m` a departure notice: a "Server" entry whose text ends in the
      departure suffix? */
  predicate IsDeparture(m: Message) {
    && m.username == Some(Str(ServerName))
    && m.body.Text? && m.body.message.Str?
    && EndsWith(m.body.message.s, LeaveSuffix)
  }

  predicate EndsWith(t: string, suffix: string) {
    |suffix| <= |t| && t[|t| - |suffix|..] == suffix
  }

  lemma DepartureNotice(name: string, at: string)
    ensures IsDeparture(Notice(LeaveText(name), at))
  {
    assert LeaveText(name)[|name|..] == LeaveSuffix;
  }

  /** Conversely, every entry IsDeparture accepts is the departure notice of
      the name before the suffix: on the board, a "Server" entry ending in the
      suffix cannot be told apart from one that remove_client posted. */
  lemma DepartureIsNotice(m: Message)
    requires IsDeparture(m)
    ensures var t := m.body.message.s;
            m == Notice(LeaveText(t[..|t| - |LeaveSuffix|]), m.timestamp)
  {
  }

  /** Join and departure notices are never confused, and each names one user. */
  lemma NoticeTextsDistinct(a: string, b: string)
    ensures JoinText(a) != LeaveText(b)
    ensures JoinText(a) == JoinText(b) ==> a == b
    ensures LeaveText(a) == LeaveText(b) ==> a == b
  {
    if |a| == |b| {
      var n := |a| + 2;
      assert JoinText(a)[n] == JoinSuffix[2];
      assert LeaveText(b)[n] == LeaveSuffix[2];
    } else {
      assert |JoinText(a)| != |LeaveText(b)|;
    }
    if JoinText(a) == JoinText(b) {
      assert a == JoinText(a)[..|a|];
    }
    if LeaveText(a) == LeaveText(b) {
      assert a == LeaveText(a)[..|a|];
    }
  }

  /** Index of the first occurrence of `c` in `s` (Python's str.find, with
      None for -1). */
  function IndexOf(s: string, c: char): (r: Option<nat>)
    ensures r.None? <==> c !in s
    ensures r.Some? ==> r.value < |s| && s[r.value] == c && c !in s[..r.value]
    decreases |s|
  {
    if s == [] then None
    else if s[0] == c then Some(0)
    else match IndexOf(s[1..], c)
      case None => None
      case Some(k) =>
        assert s[1..][..k] == s[1..k + 1];
        Some(k + 1)
  }

  /** The first occurrence is determined by where `c` first appears. */
  lemma IndexOfJoined(a: string, c: char, b: string)
    requires c !in a
    ensures IndexOf(a + [c] + b, c) == Some(|a|)
  {
    var s := a + [c] + b;
    assert s[|a|] == c;
    assert s[..|a|] == a;
  }
}
