/**
 * The assistant's tool catalog: the five built-in tools followed by the
 * external ones, and the two texts that list it (`list_tools` and the
 * welcome message).
 */
module Catalog {
  import opened Text

  /** A tool as the catalog sees it: its name and its description. */
  datatype Tool = Tool(name: string, description: string)

  const ChatToolName: string := "chat_tool"
  const ShowHistoryName: string := "show_history"
  const ClearHistoryName: string := "clear_history"
  const ListToolsName: string := "list_tools"
  const SaveHistoryName: string := "save_history_to_file"

  /** The built-in tools, in the order the assistant creates them. */
  const InternalTools: seq<Tool> := [
    Tool(ChatToolName, "Генерирует текстовый ответ через модель, используя историю"),
    Tool(ShowHistoryName, "Возвращает текст всей истории с пометкой отправителя"),
    Tool(ClearHistoryName, "Очищает историю сообщений"),
    Tool(ListToolsName, "Возвращает список всех доступных инструментов"),
    Tool(SaveHistoryName, "Сохраняет историю диалога в файл")
  ]

  const WelcomeHeader: string := "Привет! Я твой помощник. Список доступных команд:"

  /** `internal_tools + external_tools`. */
  function ToolCatalog(external: seq<Tool>): seq<Tool> {
    InternalTools + external
  }

  /** The tool names, in catalog order. */
  function Names(c: seq<Tool>): (names: seq<string>)
    ensures |names| == |c|
    ensures forall k :: 0 <= k < |c| ==> names[k] == c[k].name
  {
    if |c| == 0 then [] else [c[0].name] + Names(c[1..])
  }

  /** `list_tools`: the names, one per line; with single-line names, its lines are exactly the names. */
  function ListTools(c: seq<Tool>): (text: string)
    ensures |c| >= 1 && NamesSingleLine(c) ==> Split(text) == Names(c)
  {
    NamesSplit(c);
    Join(Names(c))
  }

  /** With single-line names, splitting their newline join gives them back. */
  lemma NamesSplit(c: seq<Tool>)
    ensures |c| >= 1 && NamesSingleLine(c) ==> Split(Join(Names(c))) == Names(c)
  {
    if |c| >= 1 && NamesSingleLine(c) {
      assert forall k :: 0 <= k < |c| ==> Names(c)[k] == c[k].name;
      SplitJoin(Names(c));
    }
  }

  /** The bullet line for one tool in the welcome message. */
  function Bullet(t: Tool): string {
    " - " + t.name
  }

  /** The bullet lines, in catalog order. */
  function Bullets(c: seq<Tool>): (lines: seq<string>)
    ensures |lines| == |c|
    ensures forall k :: 0 <= k < |c| ==> lines[k] == Bullet(c[k])
  {
    if |c| == 0 then [] else [Bullet(c[0])] + Bullets(c[1..])
  }

  /**
   * `get_welcome_message`: the greeting line, then one bullet per tool; with
   * single-line names, its lines are exactly those, |c| + 1 of them.
   */
  function Welcome(c: seq<Tool>): (text: string)
    ensures NamesSingleLine(c) ==> Split(text) == [WelcomeHeader] + Bullets(c)
  {
    WelcomeSplit(c);
    Join([WelcomeHeader] + Bullets(c))
  }

  /** With single-line names, splitting the joined greeting and bullets gives them back. */
  lemma WelcomeSplit(c: seq<Tool>)
    ensures NamesSingleLine(c) ==> Split(Join([WelcomeHeader] + Bullets(c))) == [WelcomeHeader] + Bullets(c)
  {
    if NamesSingleLine(c) {
      WelcomeLinesSingle(c);
      SplitJoin([WelcomeHeader] + Bullets(c));
    }
  }

  /** No tool name spans several lines. */
  predicate NamesSingleLine(c: seq<Tool>) {
    forall k :: 0 <= k < |c| ==> SingleLine(c[k].name)
  }

  /** The greeting is one line. */
  lemma HeaderSingleLine()
    ensures SingleLine(WelcomeHeader)
  {
    var a, b, c := HeaderPieces();
    SingleLineConcat(a, b);
    SingleLineConcat(a + b, c);
  }

  /** The greeting in three newline-free pieces. */
  lemma HeaderPieces() returns (a: string, b: string, c: string)
    ensures WelcomeHeader == a + b + c
    ensures SingleLine(a) && SingleLine(b) && SingleLine(c)
  {
    a, b, c := "Привет! Я твой ", "помощник. Список ", "доступных команд:";
    assert SingleLine(a);
    assert SingleLine(b);
    assert SingleLine(c);
  }

  /** The bullets of a concatenation are the concatenation of the bullets. */
  lemma {:induction false} BulletsAppend(a: seq<Tool>, b: seq<Tool>)
    ensures Bullets(a + b) == Bullets(a) + Bullets(b)
  {
  }

  /** The names of a concatenation are the concatenation of the names. */
  lemma {:induction false} NamesAppend(a: seq<Tool>, b: seq<Tool>)
    ensures Names(a + b) == Names(a) + Names(b)
  {
  }

  /**
   * `list_tools` lists the built-in names, then (on further lines) the external
   * names in discovery order.
   */
  lemma ListToolsOrder(external: seq<Tool>)
    ensures |external| == 0 ==> ListTools(ToolCatalog(external)) == ListTools(InternalTools)
    ensures |external| > 0 ==>
              ListTools(ToolCatalog(external)) == ListTools(InternalTools) + [NL] + ListTools(external)
  {
    NamesAppend(InternalTools, external);
    if |external| == 0 {
      assert ToolCatalog(external) == InternalTools;
    } else {
      JoinAppend(Names(InternalTools), Names(external));
    }
  }

  /** The built-in names are single lines. */
  lemma InternalSingleLine()
    ensures NamesSingleLine(InternalTools)
  {
    assert SingleLine(ChatToolName) && SingleLine(ShowHistoryName) && SingleLine(ClearHistoryName);
    assert SingleLine(ListToolsName) && SingleLine(SaveHistoryName);
  }

  /** Single-line external names give a catalog of single-line names. */
  lemma CatalogSingleLine(external: seq<Tool>)
    requires NamesSingleLine(external)
    ensures NamesSingleLine(ToolCatalog(external))
  {
    InternalSingleLine();
    var c := ToolCatalog(external);
    forall k | 0 <= k < |c|
      ensures SingleLine(c[k].name)
    {
      if k < |InternalTools| {
        assert c[k] == InternalTools[k];
      } else {
        assert c[k] == external[k - |InternalTools|];
      }
    }
  }

  /** With single-line names, each line of `list_tools` is one tool's name, in catalog order. */
  lemma ListToolsLines(external: seq<Tool>)
    requires NamesSingleLine(external)
    ensures Split(ListTools(ToolCatalog(external))) == Names(ToolCatalog(external))
  {
    var c := ToolCatalog(external);
    CatalogSingleLine(external);
    assert forall k :: 0 <= k < |c| ==> Names(c)[k] == c[k].name;
    SplitJoin(Names(c));
  }

  /** With single-line names, the greeting and every bullet are single lines. */
  lemma WelcomeLinesSingle(c: seq<Tool>)
    requires NamesSingleLine(c)
    ensures forall k :: 0 <= k < |c| + 1 ==> SingleLine(([WelcomeHeader] + Bullets(c))[k])
  {
    var lines := [WelcomeHeader] + Bullets(c);
    forall k | 0 <= k < |lines|
      ensures SingleLine(lines[k])
    {
      if k > 0 {
        assert lines[k] == " - " + c[k - 1].name;
      } else {
        HeaderSingleLine();
      }
    }
  }
}
