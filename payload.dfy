/**
  The request the summary command sends to the completion service: nine
  fixed instruction segments, then one segment carrying the selected lines
  joined by newlines, with a fixed model name and output bound.
 */
module Payload {
  import opened Wrappers
  import opened PyText

  datatype Role = System | User

  /** A segment's content. Eight of the instruction segments carry a string;
      the ninth is written with braces in the source and so carries a
      one-element Python set of strings. */
  datatype Content = Text(text: string) | TextSet(items: set<string>)

  datatype Segment = Segment(role: Role, content: Content)

  datatype Request = Request(model: string, messages: seq<Segment>, maxTokens: nat)

  const Model: string := "gpt-4o-mini"
  const MaxTokens: nat := 300

  /** The nine fixed segments, in order. Adjacent literals in the source are
      concatenated without a separator, and so they are here. */
  const Instructions: seq<Segment> := [
    Segment(System, Text(
      "Ты — помощник, который читает сообщения из Telegram-чата "
      + "и пересказывает, что в нём происходило.")),
    Segment(User, Text(
      "Тебе пришлют сообщения из чата."
      + "Каждое ссообщение имеет формат: 'Имя: текст сообщения'. ")),
    Segment(User, Text(
      "Твоя задача - написать связный текст, как небольшой рассказ,"
      + "о том, что обсуждалось в чате.")),
    Segment(User, Text(
      "Ты должене упомянуть каждого человека по ИМЕНИ"
      + "(имя указано в начале сообщения до двоеточия).")),
    Segment(User, Text(
      "Описывая каждого человека, используй формулировки вида:\n"
      + "— «Имя сказал(а), что …»\n"
      + "— «Имя говорил(а) о том, что …»\n\n"
      + "Глагол подбирай по контексту и по звучанию фразы. "
      + "Не используй формат 'Имя: ...'.")),
    Segment(User, Text(
      "После слов «сказал(а) / говорил(а) о том, что» "
      + "кратко опиши суть сообщений этого человека, "
      + "не повторяя текст дословно.")),
    Segment(User, Text(
      "Не выдумывай факты и не добавляй того, чего нет в сообщениях. "
      + "Не используй @username и технические никнеймы.")),
    Segment(User, Text(
      "Не используй списки, пункты или маркировку. "
      + "Ответ должен быть обычным связным текстом.")),
    Segment(User, TextSet({
      "В конце добавь одно краткое предложение "
      + "про общую атмосферу чата(например активная, веселая, деловая и т.д.),"
      + "если это ощущается по сообщениям."}))
  ]

  /** The request for a window of selected lines: the fixed model and bound,
      and the newline join of the lines as its chat text (`PayloadShape` and
      `PayloadCarriesLines` say what else it keeps fixed and what it carries). */
  function BuildPayload(selected: seq<string>): (r: Request)
    ensures r.model == Model && r.maxTokens == MaxTokens
    ensures ChatText(r) == Some(JoinLines(selected))
  {
    Request(Model, Instructions + [Segment(System, Text(JoinLines(selected)))], MaxTokens)
  }

  /** The chat text a request carries: the content of its tenth segment when
      that is a string. */
  function ChatText(r: Request): Option<string> {
    if |r.messages| == 10 && r.messages[9].content.Text? then Some(r.messages[9].content.text)
    else None
  }

  /** Every request has the same model, output bound and nine leading
      segments, whatever the selected lines; only the tenth, a system
      segment, depends on them, and it carries exactly their newline join. */
  lemma PayloadShape(a: seq<string>, b: seq<string>)
    ensures BuildPayload(a).model == BuildPayload(b).model == "gpt-4o-mini"
    ensures BuildPayload(a).maxTokens == BuildPayload(b).maxTokens == 300
    ensures |BuildPayload(a).messages| == |BuildPayload(b).messages| == 10
    ensures BuildPayload(a).messages[..9] == BuildPayload(b).messages[..9]
    ensures BuildPayload(a).messages[9].role == System
    ensures ChatText(BuildPayload(a)) == Some(JoinLines(a))
  {
  }

  /** The chat text of a request splits back into the selected lines when
      there is at least one and none contains a newline of its own. */
  lemma PayloadCarriesLines(selected: seq<string>)
    requires |selected| >= 1
    requires forall k :: 0 <= k < |selected| ==> '\n' !in selected[k]
    ensures ChatText(BuildPayload(selected)).Some?
    ensures SplitLines(ChatText(BuildPayload(selected)).value) == selected
  {
    SplitJoin(selected);
  }

  /** Two such selections that give the same request are the same selection. */
  lemma PayloadInjective(a: seq<string>, b: seq<string>)
    requires |a| >= 1 && |b| >= 1
    requires forall k :: 0 <= k < |a| ==> '\n' !in a[k]
    requires forall k :: 0 <= k < |b| ==> '\n' !in b[k]
    requires BuildPayload(a) == BuildPayload(b)
    ensures a == b
  {
    PayloadCarriesLines(a);
    PayloadCarriesLines(b);
  }

  /** A message of several lines is stored as one line holding newlines, and
      its join cannot be told apart from that of the lines taken one by one:
      without the newline-free premise, the request does not determine the
      selection. */
  lemma MultiLineAmbiguous()
    ensures ["a\nb"] != ["a", "b"]
    ensures BuildPayload(["a\nb"]) == BuildPayload(["a", "b"])
  {
    var lines := ["a", "b"];
    assert lines[1..] == ["b"];
    assert JoinLines(lines) == "a" + "\n" + "b";
    assert "a" + "\n" + "b" == "a\nb";
  }
}
