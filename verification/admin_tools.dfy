/**
 * The built-in tools that touch the history: `chat_tool` (window plus reply
 * normalisation), `clear_history` and `save_history_to_file`. `show_history`
 * is `History.ShowHistory` and `list_tools` is `Catalog.ListTools`.
 */
module AdminTools {
  import opened Outcomes
  import opened Messages
  import opened History

  /** Fallback text when the model's reply carries nothing usable. */
  const EmptyReply: string := "Пустой ответ"
  const ClearedText: string := "\U{1F9F9} История очищена!"
  const DefaultFileName: string := "history.txt"
  const SavedPrefix: string := "История сохранена в "
  const SaveErrorPrefix: string := "Ошибка при сохранении: "
  /**
   * Stands for the `AttributeError` Python raises when `arguments` is not a
   * dict; the real message also names the value's type (`'str' object has no
   * attribute 'get'`), which this model does not track.
   */
  const NoGetError: string := "AttributeError: object has no attribute 'get'"

  /**
   * The Python value found in a model reply's `content` attribute: `None`
   * (also when the attribute is missing), a string, a dict with string keys,
   * or any other object given by its `str()` text and its truthiness.
   */
  datatype PyValue =
    | PyNone
    | PyStr(s: string)
    | PyDict(entries: map<string, PyValue>)
    | PyObj(text: string, truthy: bool)

  /**
   * The reply normalisation of `chat_tool`. A dict yields
   * `content.get("arguments", {}).get("message", "Пустой ответ")`, which raises
   * when "arguments" holds something other than a dict; a string is returned
   * as is, even when empty; anything else gives its text when truthy and the
   * fallback otherwise.
   */
  function Normalize(content: PyValue): (r: Result<PyValue>)
    ensures content.PyStr? ==> r == Ok(content)
    ensures content.PyNone? ==> r == Ok(PyStr(EmptyReply))
    ensures content.PyObj? ==> r == Ok(PyStr(if content.truthy then content.text else EmptyReply))
    ensures !content.PyDict? ==> r.Ok? && r.value.PyStr? && (r.value.s == "" <==> content in {PyStr(""), PyObj("", true)})
    ensures r.Err? <==> content.PyDict? && "arguments" in content.entries && !content.entries["arguments"].PyDict?
    ensures content.PyDict? && "arguments" !in content.entries ==> r == Ok(PyStr(EmptyReply))
    ensures content.PyDict? && "arguments" in content.entries && content.entries["arguments"].PyDict? ==>
              var args := content.entries["arguments"].entries;
              r == Ok(if "message" in args then args["message"] else PyStr(EmptyReply))
  {
    match content
    case PyDict(d) =>
      var args := if "arguments" in d then d["arguments"] else PyDict(map[]);
      if args.PyDict? then
        Ok(if "message" in args.entries then args.entries["message"] else PyStr(EmptyReply))
      else Err(NoGetError)
    case PyStr(_) => Ok(content)
    case PyNone => Ok(PyStr(EmptyReply))
    case PyObj(text, truthy) => Ok(PyStr(if truthy then text else EmptyReply))
  }

  /**
   * `chat_tool`: the model (an opaque function from messages to the reply's
   * content, or to the text of the exception the call raised) sees only the
   * last ten messages of the history; a raise propagates out of the tool, and
   * a reply is normalised. The history itself is not changed.
   */
  function ChatTool(h: seq<Message>, llm: seq<Message> -> Result<PyValue>): (r: Result<PyValue>)
    ensures llm(Window(h)).Err? ==> r == llm(Window(h))
    ensures llm(Window(h)).Ok? ==> r == Normalize(llm(Window(h)).value)
  {
    match llm(Window(h))
    case Err(e) => Err(e)
    case Ok(content) => Normalize(content)
  }

  /** Messages older than the window never influence `chat_tool`. */
  lemma ChatToolSeesWindowOnly(h1: seq<Message>, h2: seq<Message>, llm: seq<Message> -> Result<PyValue>)
    requires |h1| >= ChatWindow && |h2| >= ChatWindow
    requires h1[|h1| - ChatWindow..] == h2[|h2| - ChatWindow..]
    ensures ChatTool(h1, llm) == ChatTool(h2, llm)
  {
  }

  /** What a history-clearing tool returns and leaves behind. */
  datatype ClearOutcome = ClearOutcome(reply: string, history: seq<Message>)

  /** `clear_history` (the tool): empties the history and confirms. */
  function ClearHistoryTool(h: seq<Message>): (r: ClearOutcome)
    ensures r.history == [] && r.reply == ClearedText
  {
    ClearOutcome(ClearedText, Clear(h))
  }

  /** Whether the file write succeeded, or the text of the exception it raised. */
  datatype WriteOutcome = Written | WriteFailed(error: string)

  /** The tool's reply and the file contents it is known to have produced. */
  datatype SaveOutcome = SaveOutcome(reply: string, file: Option<string>)

  /**
   * `save_history_to_file`: writes every rendered line followed by a newline
   * to the given file, "history.txt" when no name is given, and reports
   * success or the exception's text, with distinct prefixes.
   */
  function SaveHistoryTool(h: seq<Message>, filename: Option<string>, write: WriteOutcome): (r: SaveOutcome)
    ensures write.Written? && filename.None? ==> r.reply == SavedPrefix + DefaultFileName
    ensures write.Written? && filename.Some? ==> r.reply == SavedPrefix + filename.value
    ensures write.Written? ==> r.file == Some(SaveText(h))
    ensures write.WriteFailed? ==> r.reply == SaveErrorPrefix + write.error && r.file == None
  {
    var name := if filename.Some? then filename.value else DefaultFileName;
    match write
    case Written => SaveOutcome(SavedPrefix + name, Some(SaveText(h)))
    case WriteFailed(e) => SaveOutcome(SaveErrorPrefix + e, None)
  }

  /**
   * A success reply can never be mistaken for a failure reply, whatever the
   * histories, file names and error: no success reply starts with the error prefix.
   */
  lemma SaveRepliesDistinct(h1: seq<Message>, f1: Option<string>, h2: seq<Message>, f2: Option<string>, e: string)
    ensures SaveHistoryTool(h1, f1, Written).reply != SaveHistoryTool(h2, f2, WriteFailed(e)).reply
    ensures !(SaveErrorPrefix <= SaveHistoryTool(h1, f1, Written).reply)
  {
    var ok := SaveHistoryTool(h1, f1, Written).reply;
    var bad := SaveHistoryTool(h2, f2, WriteFailed(e)).reply;
    assert ok[0] == SavedPrefix[0];
    assert bad[0] == SaveErrorPrefix[0];
  }
}
