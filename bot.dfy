/**
  The bot's per-chat message buffers and the handlers that act on them:
  storing an incoming message, the summary command, the clear command and
  the diagnostic count.
 */
module Bot {
  import opened Wrappers
  import opened PyText
  import opened Window
  import opened Payload

  /** Most lines a chat's buffer keeps. */
  const MaxBuffer: nat := 500

  /** Lines summarised when the command has no argument. */
  const DefaultCount: int := 5

  /** The name used when the sender has no name at all. */
  const Placeholder: string := "Пользователь"

  /** Python truthiness of an optional string: present and not "". */
  predicate Truthy(s: Option<string>) {
    s.Some? && s.value != []
  }

  /** `(full_name or first_name or "Пользователь").strip()`: the fallback
      literal when neither profile name is set (`DisplayNameEmptyIff` says
      when the name is empty). */
  function DisplayName(fullName: Option<string>, firstName: Option<string>): (r: string)
    ensures !Truthy(fullName) && !Truthy(firstName) ==> r == Placeholder
  {
    assert Placeholder[0] == 'П' && Placeholder[|Placeholder| - 1] == 'ь';
    StripUnchanged(Placeholder);
    Strip(if Truthy(fullName) then fullName.value
          else if Truthy(firstName) then firstName.value
          else Placeholder)
  }

  /** The stored line `f"{display_name}: {text.strip()}"`: the name, then a
      colon (`FormatLineKept` says how the summary's filter treats it). */
  function FormatLine(name: string, text: string): (r: string)
    ensures |r| > |name| && name <= r && r[|name|] == ':'
  {
    name + ": " + Strip(text)
  }

  /** A chat's buffer after one line is appended: the line goes at the end,
      and if the list then holds more than `MaxBuffer` lines its first one
      is dropped. */
  function Push(buffer: seq<string>, line: string): (r: seq<string>)
    ensures |r| >= 1 && r[|r| - 1] == line
    ensures |buffer| <= MaxBuffer ==> |r| <= MaxBuffer
  {
    if |buffer| + 1 > MaxBuffer then (buffer + [line])[1..] else buffer + [line]
  }

  /** The last `n` elements of `s`, or all of it when it is shorter. */
  function Newest(s: seq<string>, n: nat): seq<string> {
    if |s| <= n then s else s[|s| - n..]
  }

  /** A buffer holding at most `MaxBuffer` lines still does after a push; its
      length grows by one until it reaches the bound and then stays there, the
      new line is its last, and the lines before it are the old ones minus, at
      the bound, exactly the oldest. */
  lemma PushBounded(buffer: seq<string>, line: string)
    requires |buffer| <= MaxBuffer
    ensures |Push(buffer, line)| == if |buffer| < MaxBuffer then |buffer| + 1 else MaxBuffer
    ensures Push(buffer, line) == (if |buffer| == MaxBuffer then buffer[1..] else buffer) + [line]
  {
  }

  /** The buffer after a run of messages. */
  function PushAll(buffer: seq<string>, lines: seq<string>): seq<string>
    decreases |lines|
  {
    if lines == [] then buffer else PushAll(Push(buffer, lines[0]), lines[1..])
  }

  /** Taking the newest `n` twice is taking them once, even with more
      elements appended in between. */
  lemma NewestAppend(s: seq<string>, t: seq<string>, n: nat)
    ensures Newest(Newest(s, n) + t, n) == Newest(s + t, n)
  {
    if |s| > n {
      var a := s[|s| - n..] + t;
      var b := s + t;
      assert a == b[|s| - n..];
      assert a[|t|..] == b[|s| - n + |t|..];
    }
  }

  /** First in, first out: starting from a buffer within the bound, any run
      of messages leaves exactly the newest `MaxBuffer` lines of everything
      seen, old lines then new, in arrival order. */
  lemma {:induction false} PushAllKeepsNewest(buffer: seq<string>, lines: seq<string>)
    requires |buffer| <= MaxBuffer
    ensures PushAll(buffer, lines) == Newest(buffer + lines, MaxBuffer)
    decreases |lines|
  {
    if lines == [] {
      assert buffer + lines == buffer;
    } else {
      var next := Push(buffer, lines[0]);
      PushBounded(buffer, lines[0]);
      assert next == Newest(buffer + [lines[0]], MaxBuffer);
      PushAllKeepsNewest(next, lines[1..]);
      NewestAppend(buffer + [lines[0]], lines[1..], MaxBuffer);
      assert buffer + [lines[0]] + lines[1..] == buffer + lines;
    }
  }

  /** The name is empty exactly when the profile name it was taken from is
      made of whitespace only; the fallback literal is never empty. */
  lemma DisplayNameEmptyIff(fullName: Option<string>, firstName: Option<string>)
    ensures DisplayName(fullName, firstName) == [] <==>
      (Truthy(fullName) && AllSpace(fullName.value))
      || (!Truthy(fullName) && Truthy(firstName) && AllSpace(firstName.value))
  {
    if Truthy(fullName) {
      StripBlank(fullName.value);
    } else if Truthy(firstName) {
      StripBlank(firstName.value);
    }
  }

  /** A stored line is never blank, since it holds the colon after the name,
      so the summary's selection drops it exactly when the sender's name
      starts with "/". */
  lemma {:induction false} FormatLineKept(name: string, text: string)
    ensures Strip(FormatLine(name, text)) != []
    ensures Keep(FormatLine(name, text)) <==> !StartsWith(name, "/")
  {
    var line := FormatLine(name, text);
    assert line[|name|] == ':';
    assert !AllSpace(line) by {
      assert !IsSpace(line[|name|]);
    }
    StripBlank(line);
    if name == [] {
      assert line[0] == ':';
    } else {
      assert line[0] == name[0];
    }
  }

  /** How the summary command reads its argument: absent, a number that
      `int()` accepted, or text `int()` rejects with a ValueError. */
  datatype CountArg = NoArgument | Number(value: int) | NotANumber

  /** What the completion service returns: generated text, or an error. */
  datatype Completion = Completed(summary: string) | CompletionFailed

  /** How a summary command ends; every ending but the last replies with an
      explanatory message. */
  datatype SumOutcome =
    | InvalidNumber          // the argument is not a number
    | NothingToSummarize     // no line of the window survives the filter
    | GenerationFailed       // the completion call raised
    | ReplyFailed            // sending the summary raised
    | Summarized(summary: string)

  /** The count the command works with, if its argument parses: none
      exactly for an unparsable argument, 5 when there is no argument. */
  function CountOf(arg: CountArg): (r: Option<int>)
    ensures r.None? <==> arg.NotANumber?
    ensures arg.NoArgument? ==> r == Some(5)
  {
    match arg
    case NoArgument => Some(DefaultCount)
    case Number(n) => Some(n)
    case NotANumber => None
  }

  /** The request the command sends for a chat holding `lines`, if any: none
      for an unparsable argument or an empty chat (`RequestSentIff` gives
      both directions). */
  function RequestFor(lines: seq<string>, arg: CountArg): (r: Option<Request>)
    ensures arg.NotANumber? ==> r.None?
    ensures lines == [] ==> r.None?
    ensures r.Some? ==> r.value.model == Model && ChatText(r.value).Some?
  {
    match CountOf(arg)
    case None => None
    case Some(count) =>
      var selected := SelectWindow(lines, count);
      if selected == [] then None else Some(BuildPayload(selected))
  }

  /** How the command ends for a chat holding `lines`, given what the
      completion service answers and whether the reply goes through. */
  function SumResult(lines: seq<string>, arg: CountArg, backend: Request -> Completion, delivered: bool): (r: SumOutcome)
    ensures r == InvalidNumber <==> arg.NotANumber?
    ensures r == NothingToSummarize <==> !arg.NotANumber? && RequestFor(lines, arg).None?
    ensures r.Summarized? ==> delivered && RequestFor(lines, arg).Some?
  {
    if arg.NotANumber? then InvalidNumber
    else match RequestFor(lines, arg)
      case None => NothingToSummarize
      case Some(request) =>
        match backend(request)
        case CompletionFailed => GenerationFailed
        case Completed(summary) => if delivered then Summarized(summary) else ReplyFailed
  }

  /** The completion service is asked exactly when the argument parses and
      the window holds at least one line, and then with the request built
      from that window. */
  lemma RequestSentIff(lines: seq<string>, arg: CountArg)
    ensures RequestFor(lines, arg).Some? <==>
      !arg.NotANumber? && SelectWindow(lines, CountOf(arg).value) != []
    ensures RequestFor(lines, arg).Some? ==>
      RequestFor(lines, arg) == Some(BuildPayload(SelectWindow(lines, CountOf(arg).value)))
  {
  }

  /** An empty or never-seen chat never reaches the completion service. */
  lemma EmptyChatSendsNothing(arg: CountArg)
    ensures RequestFor([], arg) == None
    ensures forall backend: Request -> Completion, delivered: bool ::
      SumResult([], arg, backend, delivered) == InvalidNumber
      || SumResult([], arg, backend, delivered) == NothingToSummarize
  {
  }

  /** A summary is produced exactly when the argument parses, something is
      selected, the service completes and the reply is delivered; the
      summary is then the service's text. */
  lemma SummarizedIff(lines: seq<string>, arg: CountArg, backend: Request -> Completion, delivered: bool)
    ensures SumResult(lines, arg, backend, delivered).Summarized? <==>
      RequestFor(lines, arg).Some? && backend(RequestFor(lines, arg).value).Completed? && delivered
    ensures SumResult(lines, arg, backend, delivered).Summarized? ==>
      SumResult(lines, arg, backend, delivered).summary == backend(RequestFor(lines, arg).value).summary
  {
  }

  /** The buffers of all chats, keyed by chat id. */
  class ChatBuffers {
    var buffers: map<int, seq<string>>

    /** No chat holds more than `MaxBuffer` lines. */
    ghost predicate Valid()
      reads this
    {
      forall id :: id in buffers ==> |buffers[id]| <= MaxBuffer
    }

    /** `buffers.get(chat_id, [])`. */
    function Lines(chatId: int): seq<string>
      reads this
    {
      if chatId in buffers then buffers[chatId] else []
    }

    constructor ()
      ensures Valid() && buffers == map[]
    {
      buffers := map[];
    }

    /** Stores one incoming message (`handle_message`): a missing or empty
        text changes nothing; any other text is appended, formatted with the
        sender's name, to the end of that chat's list, which is created if
        absent and loses its oldest line if it then passes `MaxBuffer`.
        Other chats are untouched. */
    method HandleMessage(chatId: int, text: Option<string>, fullName: Option<string>, firstName: Option<string>)
      requires Valid()
      modifies this
      ensures Valid()
      ensures !Truthy(text) ==> buffers == old(buffers)
      ensures Truthy(text) ==> buffers == old(buffers)[chatId :=
        Push(old(Lines(chatId)), FormatLine(DisplayName(fullName, firstName), text.value))]
    {
      if !Truthy(text) {
        return;
      }
      var displayName := DisplayName(fullName, firstName);
      var line := FormatLine(displayName, text.value);
      if chatId !in buffers {
        buffers := buffers[chatId := []];
      }
      assert buffers[chatId] == old(Lines(chatId));
      buffers := buffers[chatId := buffers[chatId] + [line]];
      if |buffers[chatId]| > MaxBuffer {
        buffers := buffers[chatId := buffers[chatId][1..]];
      }
      assert buffers[chatId] == Push(old(Lines(chatId)), line);
    }

    /** The summary command (`sum_messages`). The window is read without
        changing anything; the chat's buffer is emptied only when the
        completion service answered and the summary was delivered, and every
        other ending leaves all buffers as they were. `sent` is the request
        passed to the service, if it was called. */
    method Summarize(chatId: int, arg: CountArg, backend: Request -> Completion, delivered: bool)
      returns (outcome: SumOutcome, sent: Option<Request>)
      requires Valid()
      modifies this
      ensures Valid()
      ensures sent == RequestFor(old(Lines(chatId)), arg)
      ensures outcome == SumResult(old(Lines(chatId)), arg, backend, delivered)
      ensures outcome.Summarized? ==> buffers == old(buffers)[chatId := []]
      ensures !outcome.Summarized? ==> buffers == old(buffers)
    {
      var count: int;
      match arg {
        case NotANumber =>
          return InvalidNumber, None;
        case NoArgument =>
          count := DefaultCount;
        case Number(n) =>
          count := n;
      }
      var chatBuffer := Lines(chatId);
      var selected := SelectWindow(chatBuffer, count);
      if selected == [] {
        return NothingToSummarize, None;
      }
      var request := BuildPayload(selected);
      sent := Some(request);
      var response := backend(request);
      if response.CompletionFailed? {
        return GenerationFailed, sent;
      }
      if !delivered {
        return ReplyFailed, sent;
      }
      buffers := buffers[chatId := []];
      outcome := Summarized(response.summary);
    }

    /** The clear command (`clear_buffer`): the chat's list becomes empty
        whatever it held, whether or not the confirmation is delivered. */
    method ClearBuffer(chatId: int, confirmationDelivered: bool)
      requires Valid()
      modifies this
      ensures Valid()
      ensures buffers == old(buffers)[chatId := []]
    {
      buffers := buffers[chatId := []];
    }

    /** The diagnostic count (`debug`): how many lines the chat holds, 0 for
        a chat never seen; reading it changes nothing. */
    method Debug(chatId: int) returns (n: nat)
      requires Valid()
      ensures n <= MaxBuffer
      ensures chatId !in buffers ==> n == 0
      ensures chatId in buffers ==> n == |buffers[chatId]|
    {
      n := |Lines(chatId)|;
    }
  }

  /** A client of the class: what a caller can conclude from the contracts
      alone about a fresh set of buffers, one message, a summary command with
      a bad argument, one for a chat with no lines, and a clear. */
  method Scenario(chatId: int, text: string, name: string, backend: Request -> Completion)
    requires text != []
  {
    var chats := new ChatBuffers();
    chats.HandleMessage(chatId, Some(text), Some(name), None);
    var n := chats.Debug(chatId);
    assert n == 1;
    var outcome, sent := chats.Summarize(chatId, NotANumber, backend, true);
    assert outcome == InvalidNumber && sent == None;
    n := chats.Debug(chatId);
    assert n == 1;
    outcome, sent := chats.Summarize(chatId + 1, NoArgument, backend, true);
    assert outcome == NothingToSummarize && sent == None;
    chats.ClearBuffer(chatId, false);
    n := chats.Debug(chatId);
    assert n == 0;
  }
}
