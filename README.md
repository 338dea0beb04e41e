# Chat summary bot: message buffers and the summary request

A Telegram bot (`bot.py`) keeps, for every chat it is in, a list of the most
recent text messages, each stored as the line `"<name>: <text>"`. The list
holds at most 500 lines. When it passes that bound, its oldest line is
dropped. The `/sum N` command reads the last `N` lines (5 by default). It
drops the blank ones and the ones starting with `/`, then joins the rest with
newlines. The joined text becomes the last of ten segments of a
chat-completion request. The nine segments before it are fixed instructions
that ask for a short narrative retelling. The chat's list is emptied only
after the service has answered and the summary has been sent back. `/clear`
empties the list, and `/debug` reports its length.

This project models that core in Dafny:

- `wrappers.dfy` (`Wrappers`): the `Option` type for Python's value-or-`None`.
- `text.dfy` (`PyText`): the Python string operations the bot relies on.
  These are `str.isspace` (with Python's full set of whitespace characters),
  `str.strip()`, `str.startswith`, and `"\n".join` with its inverse
  `str.split("\n")`.
- `window.dfy` (`Window`): the slice `chat_buffer[-count:]` under Python's
  list-slicing rules, and the filtering comprehension.
- `payload.dfy` (`Payload`): the request, with its ten role-tagged segments,
  model name and output bound.
- `bot.dfy` (`Bot`): the class `ChatBuffers`, whose field
  `buffers: map<int, seq<string>>` is the module-level dictionary. Its methods
  are the four handlers. Beside them are the pure functions that specify the
  handlers (`Push`, `SelectWindow`, `RequestFor`, `SumResult`) and the lemmas
  about those functions.

The parts outside the program become inputs. The sender's two profile names
are `Option<string>`. The parsed command argument is `CountArg` (absent, a
number, or text that `int()` rejects). The completion service is a function
`backend: Request -> Completion`. Whether the reply reaches the chat is a
`bool`. `Summarize` also returns the request it passed to the service, or
`None` when it did not call the service.

Some behaviours of the code a reader may not expect, all of which the model
keeps:

- A message made only of whitespace is not ignored. Only a missing or empty
  text is ignored; a whitespace-only text is stored as `"<name>: "`.
- The name can be empty. That happens when the chosen profile name is made
  only of whitespace (`DisplayNameEmptyIff`). The fallback name is
  `"Пользователь"`.
- The count is not checked to be positive. `/sum 0` reads the whole list, and
  `/sum -k` reads all but its first `k` lines (`Window.TailCases`).
- The ninth instruction segment is written with braces in the source. It is
  therefore a one-element Python set of strings rather than a string
  (`Payload.Content.TextSet`).
- There is no nickname store in the code, so none is modelled.
- A message of several lines keeps its inner newlines, because `strip()` only
  trims the ends. Once such a line is selected, the joined chat text no longer
  determines the selection: `["a\nb"]` and `["a", "b"]` give the same request
  (`Payload.MultiLineAmbiguous`). `PayloadCarriesLines` and `PayloadInjective`
  therefore assume newline-free lines.

## Model

| member | source | states |
|---|---|---|
| `PyText.TrimLeftShape` | bot.py:34-35 | removing leading whitespace leaves a suffix of the input; every removed character is whitespace, and the suffix is empty or starts with a non-space character |
| `PyText.TrimRightShape` | bot.py:34-35 | removing trailing whitespace leaves a prefix of the input; every removed character is whitespace, and the prefix is empty or ends with a non-space character |
| `PyText.Strip` | bot.py:34-35 | `strip()` is never longer than its input; `StripShape`, `StripBlank` and `StripIdempotent` state which piece of the input it is |
| `PyText.StripShape` | bot.py:34-35 | `strip()` returns a contiguous piece `s[i..j]` of its input, with only whitespace cut off around it; the piece is empty or has non-space characters at both ends |
| `PyText.StripBlank` | bot.py:50 | `m.strip()` is empty exactly when `m` consists only of whitespace, so the truthiness test rejects the blank lines and no others |
| `PyText.StripUnchanged` | bot.py:34 | a string with no whitespace at either end is its own strip |
| `PyText.StripIdempotent` | bot.py:34-35 | stripping twice gives the same result as stripping once |
| `PyText.JoinLines` | bot.py:56 | `"\n".join(lines)` starts with the first line and is at least one character per separator long; `JoinSplit` and `SplitJoin` relate it to `split("\n")` |
| `PyText.JoinSplit` | bot.py:56 | `"\n".join(s.split("\n")) == s` for every string |
| `PyText.SplitJoin` | bot.py:56 | splitting the newline join of one or more newline-free lines gives back exactly those lines |
| `Window.SliceFrom` | bot.py:50 | `xs[start:]` is a suffix of `xs`, of `len(xs) - start` elements for `0 <= start <= len(xs)` and of `min(-start, len(xs))` elements for a negative start |
| `Window.Tail` | bot.py:50 | `xs[-count:]`; `TailCases` states its value for each sign of `count` |
| `Window.TailCases` | bot.py:50 | `xs[-count:]` is the last `count` elements when `0 < count <= len(xs)`; all of `xs` when `count > len(xs)` or `count == 0`; `xs[-count:]` with the first `-count` elements removed when `count < 0`, which is empty once `-count >= len(xs)` |
| `Window.Keep` | bot.py:50 | the test `m.strip() and not m.startswith("/")`; `StripBlank`, `KeptLine` and `SelectedIff` state which lines pass it |
| `Window.Filter` | bot.py:50 | the comprehension result is no longer than its input, is an order-preserving subsequence of it, and holds only lines that pass the test |
| `Window.FilterCount` | bot.py:50 | each line that passes the test occurs in the comprehension result as often as in its input, and a line that fails it does not occur |
| `Window.FilterUnique` | bot.py:50 | the comprehension result is the only subsequence of its input with that content: any subsequence that holds every passing line as often as the input and no failing line equals it |
| `Window.SelectWindow` | bot.py:49-50 | the selection has at most `count` lines when `count >= 1`; it is an order-preserving subsequence of `chat_buffer[-count:]`, and every line in it is non-blank and does not start with `/` |
| `Window.SelectWindowCount` | bot.py:49-50 | the selection holds each of the slice's non-blank lines that do not start with `/` as often as the slice does, and no other line |
| `Window.SelectedFromLast` | bot.py:50 | for `count >= 1`, every selected line is among the last `min(count, len(buffer))` lines of the buffer |
| `Window.SelectedIff` | bot.py:50 | a line is selected iff it is in the slice and passes the test |
| `Window.EmptyBufferSelectsNothing` | bot.py:49-54 | a chat with no list, read as `[]`, yields an empty selection for every count |
| `Window.KeptLine` | bot.py:50 | a line whose first character is neither whitespace nor `/` passes the test |
| `Window.CommandEchoDropped` | bot.py:50 | for the buffer `["A: hi", "B: yo", "/sum 2"]` and count 5, the selection is `["A: hi", "B: yo"]` |
| `Payload.BuildPayload` | bot.py:56-137 | the request has the model `gpt-4o-mini`, the bound 300 and the newline join of the selection as its chat text; `PayloadShape` and `PayloadCarriesLines` state the rest |
| `Payload.PayloadShape` | bot.py:56-137 | any two requests share the model `gpt-4o-mini`, the bound `max_tokens=300`, the length 10 and the first nine segments; the tenth segment has role `system` and carries exactly the newline join of the selection |
| `Payload.PayloadCarriesLines` | bot.py:56-131 | the chat text of a request splits back into the selected lines when there is at least one line and none contains a newline |
| `Payload.PayloadInjective` | bot.py:56-131 | two such selections that produce the same request are equal |
| `Payload.MultiLineAmbiguous` | bot.py:35-56 | without the newline-free premise injectivity fails: the one-line selection `["a\nb"]` and the two-line `["a", "b"]` give the same request |
| `Bot.Push` | bot.py:35-38 | the new line is the last of the list, and a list within 500 lines stays within 500; `PushBounded` and `PushAllKeepsNewest` state its exact contents |
| `Bot.PushBounded` | bot.py:35-38 | starting from at most 500 lines, the list after one append has `min(len + 1, 500)` lines; it is the old list, minus exactly its first line when it was full, followed by the new line |
| `Bot.NewestAppend` | bot.py:37-38 | keeping the newest `n` elements, appending more, and keeping the newest `n` again gives the same result as keeping the newest `n` of everything |
| `Bot.PushAllKeepsNewest` | bot.py:35-38 | starting from at most 500 lines, any run of appended lines leaves exactly the newest 500 of old-then-new lines, in arrival order (first in, first out) |
| `Bot.DisplayName` | bot.py:34 | when neither profile name is truthy, the name is `"Пользователь"`; `DisplayNameEmptyIff` states when it is empty |
| `Bot.FormatLine` | bot.py:35 | the stored line starts with the name followed by a colon; `FormatLineKept` states how the summary's filter treats it |
| `Bot.DisplayNameEmptyIff` | bot.py:34 | the name is empty iff the first truthy profile name consists only of whitespace |
| `Bot.FormatLineKept` | bot.py:35-50 | a stored line is never blank after strip; the summary filter drops it iff the sender's name starts with `/` |
| `Bot.CountOf` | bot.py:47 | the count is absent exactly when `int()` rejects the argument, and is 5 when there is no argument |
| `Bot.RequestFor` | bot.py:47-58 | no request for an unparsable argument or an empty chat; a request carries the fixed model and a chat text; `RequestSentIff` gives both directions |
| `Bot.SumResult` | bot.py:43-148 | the outcome is "invalid number" exactly for an unparsable argument, "nothing to summarize" exactly when it parses but no request is built, and a summary only when a request exists and the reply is delivered; `SummarizedIff` gives the summary case both ways |
| `Bot.RequestSentIff` | bot.py:47-58 | the service is called iff the argument parses and the selection is non-empty, and then with the request built from that selection |
| `Bot.EmptyChatSendsNothing` | bot.py:49-54 | a chat with no lines never reaches the service: for every argument, backend and delivery the command ends with "invalid number" or "nothing to summarize" |
| `Bot.SummarizedIff` | bot.py:133-148 | a summary results iff the argument parses, the selection is non-empty, the service completes and the reply is delivered; the summary is then the service's text |
| `Bot.ChatBuffers.constructor` | bot.py:21 | the buffers start as an empty map, which satisfies the bound |
| `Bot.ChatBuffers.HandleMessage` | bot.py:28-38 | a missing or empty text leaves every buffer unchanged; otherwise the chat's list (created if absent) gets `name + ": " + strip(text)` appended, followed by the eviction of `Push`; other chats are unchanged, and the 500-line bound is kept |
| `Bot.ChatBuffers.Summarize` | bot.py:43-148 | the outcome and the request sent are those of `SumResult` and `RequestFor` on the chat's lines; the chat's list becomes `[]` when the outcome is a summary, and every buffer is otherwise unchanged |
| `Bot.ChatBuffers.ClearBuffer` | bot.py:150-157 | the chat's list becomes `[]` whatever it held, whether or not the confirmation is delivered; other chats are unchanged |
| `Bot.ChatBuffers.Debug` | bot.py:161-163 | reports the chat's line count, which is 0 for an unseen chat and at most 500, and changes nothing |

## Left out

- Telegram transport is left out. This covers the text of every reply, `send_message`, the handling of `TelegramError`, the `/start` greeting, and the registration of handlers and polling (bot.py:25-26, bot.py:165-179). Replies are I/O. Only whether the summary reply is delivered is an input, because it decides the clear.
- The message filter `filters.TEXT & ~filters.COMMAND`, which decides what reaches `handle_message`, belongs to the transport.
- The completion service is the parameter `backend`. What it does with the request, including the set-valued ninth segment, is not modelled.
- A response without choices, or with no message content, is an exception in the source. The model folds it into `CompletionFailed`, or into an undelivered reply, respectively.
- Reading `.env` and the environment is configuration I/O and is left out.
- Python's `int()` grammar is a library behaviour and is left out. The argument arrives already parsed as `CountArg`.
- A `ValueError` raised after the parse, by the service call or the reply, would also produce the "give a number" message in the source. The model attributes `InvalidNumber` to the parse alone.
- Failures of the error replies themselves are not modelled. They escape the handler but touch no buffer.
- The handlers are asynchronous and share the map without locking. Concurrency is left out, so the model is sequential. In the source, a line appended while the completion call is awaited is also erased by the clear that follows a successful summary. The model, whose `Summarize` is atomic, does not show this.
