/** load_chat_log, shared by app.py and server_web.py: reading the persisted
    board at start-up. The file system read and the JSON decoder are inputs. */
module ChatLog {
  import opened Board

  /** What reading chat_log.json gives: no such file, an I/O error on open or
      read, bytes that are not valid UTF-8, or the file's text. */
  datatype LogRead = Missing | IoError | NotUtf8 | Contents(text: string)

  /** The loaded board, or None when an exception escapes load_chat_log and
      start-up fails. `decode` is json.loads: None for a JSONDecodeError. */
  function LoadChatLog(file: LogRead, decode: string -> Option<seq<Message>>): (r: Option<seq<Message>>)
    ensures r.None? <==> file.NotUtf8?
    ensures file.Missing? || file.IoError? ==> r == Some([])
    ensures file.Contents? && file.text == "" ==> r == Some([])
    ensures file.Contents? && file.text != "" && decode(file.text).None? ==> r == Some([])
    ensures file.Contents? && file.text != "" && decode(file.text).Some? ==> r == decode(file.text)
  {
    match file
    case Missing => Some([])
    case IoError => Some([])
    case NotUtf8 => None
    case Contents(text) =>
      if text == "" then Some([])
      else match decode(text)
        case None => Some([])
        case Some(log) => Some(log)
  }

  /** What save_chat_log writes, when the write succeeds: json.dump of the board. */
  function SavedFile(board: seq<Message>, encode: seq<Message> -> string): LogRead {
    Contents(encode(board))
  }

  /** A board saved by a successful save_chat_log is what the next start-up
      loads, given that json.loads inverts json.dump (whose output is never empty). */
  lemma LoadAfterSave(board: seq<Message>, encode: seq<Message> -> string,
                      decode: string -> Option<seq<Message>>)
    requires encode(board) != ""
    requires decode(encode(board)) == Some(board)
    ensures LoadChatLog(SavedFile(board, encode), decode) == Some(board)
  {
  }
}
