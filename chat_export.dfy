/** The content of the Markdown export of the message log: one section per
    message, in log order, separated by a horizontal rule. Images, ids and
    the streaming flag are not exported. */
module ChatExport {
  import opened ChatTypes
  import opened Strings

  const UserLabel: string := "用户"
  const ModelLabel: string := "模型"
  const SectionSeparator: string := "\n---\n\n"

  function RoleLabel(role: Role): (name: string)
    ensures name == UserLabel <==> role == User
    ensures name == ModelLabel <==> role != User
  {
    if role == User then UserLabel else ModelLabel
  }

  /** The section of one message: a level-3 heading with the role label,
      then the text on its own line. */
  function Section(m: ChatMessage): (s: string)
    ensures "### " + RoleLabel(m.role) + "\n" <= s
    ensures |s| == |RoleLabel(m.role)| + |m.text| + 6
    ensures s[|s| - |m.text| - 1..] == m.text + "\n"
  {
    "### " + RoleLabel(m.role) + "\n" + m.text + "\n"
  }

  /** `messages.map(...)`: the sections, in log order. */
  function Sections(log: seq<ChatMessage>): (r: seq<string>)
    ensures |r| == |log|
    ensures forall k :: 0 <= k < |log| ==> r[k] == Section(log[k])
  {
    if log == [] then [] else Sections(log[..|log| - 1]) + [Section(log[|log| - 1])]
  }

  /** The exported document; an empty log exports nothing. */
  function ExportContent(log: seq<ChatMessage>): (r: Option<string>)
    ensures r.None? <==> log == []
  {
    if log == [] then None else Some(Join(Sections(log), SectionSeparator))
  }

  /** A single message exports as its own section. */
  lemma ExportSingle(m: ChatMessage)
    ensures ExportContent([m]) == Some(Section(m))
  {
  }

  /** A message appended to a non-empty log adds a separator and its section
      at the end of the export; the earlier sections are kept as they were. */
  lemma ExportAppend(log: seq<ChatMessage>, m: ChatMessage)
    requires log != []
    ensures ExportContent(log + [m]) == Some(ExportContent(log).value + SectionSeparator + Section(m))
  {
  }

  /** The export depends only on the roles and texts of the messages, in
      order: images, ids and streaming flags are omitted. */
  lemma ExportIgnoresImages(a: seq<ChatMessage>, b: seq<ChatMessage>)
    requires |a| == |b|
    requires forall k :: 0 <= k < |a| ==> a[k].role == b[k].role && a[k].text == b[k].text
    ensures ExportContent(a) == ExportContent(b)
  {
    assert Sections(a) == Sections(b);
  }

  /** The export of a user greeting and a model reply. */
  lemma ExportExample()
    ensures ExportContent([ChatMessage("1", User, "Hi", None, false), ChatMessage("2", Model, "Hello", None, false)])
         == Some("### 用户\nHi\n\n---\n\n### 模型\nHello\n")
  {
    var log := [ChatMessage("1", User, "Hi", None, false), ChatMessage("2", Model, "Hello", None, false)];
    var first, second := "### 用户\nHi\n", "### 模型\nHello\n";
    assert Section(log[0]) == first;
    assert Section(log[1]) == second;
    assert Sections(log) == [first, second];
    assert Join([first, second], SectionSeparator) == Join([first], SectionSeparator) + SectionSeparator + second;
    var doc := "### 用户\nHi\n\n---\n\n### 模型\nHello\n";
    assert |first + SectionSeparator + second| == |doc|;
    assert forall i :: 0 <= i < |doc| ==> (first + SectionSeparator + second)[i] == doc[i];
    assert first + SectionSeparator + second == doc;
  }
}
