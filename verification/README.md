# Chat front end: conversation store and submit cycle

A Dafny model of the logic inside `bot.py`, a single-page chat front end.
It keeps an in-memory conversation and, on every non-blank submit, sends a
window of the five most recent turns upstream. The window is prefixed by
one fixed system turn. The reply is streamed back and accumulated into one
assistant turn.

Modules:

- `Wrappers`: `Option`, standing for Python's `None`.
- `Presets`: the model table (display name to API identifier, default
  `Llama3.3-70B-Versatile`) and the response-length profiles `Short`,
  `Balanced` and `Long`. Temperature and top_p are whole tenths.
- `Messages`: turns, the fixed system turn and the context window
  (`history[-5:]` behind the system turn).
- `Whitespace`: Python's `str.strip()`, used by the submit guard.
- `Completion`: `get_completion`'s shaping of the call's outcome. The
  network call is a parameter: it either returned a response or raised
  with a message.
- `Streaming`: the loop that accumulates a streamed reply, and the
  functions that specify it.
- `Session`: the per-session `ConversationStore` class. It holds the
  history, and its `Submit` and `Clear` methods change it.

## Model

| member | source | states |
|---|---|---|
| Presets.ModelId | bot.py:142 | a selectable display name resolves to an API identifier of the table; the default name resolves to `llama-3.3-70b-versatile` |
| Presets.ModelSelectorMatchesTable | bot.py:17-24 | the selector lists exactly the table's names, the default first, and the default resolves to `llama-3.3-70b-versatile` |
| Presets.ProfileSampling | bot.py:172 | every profile has a positive token budget (256, 1024 or 2048), temperature and top_p within [0, 1] and equal to each other |
| Presets.ProfileTable | bot.py:27-31 | the radio offers exactly the table's keys: Short is (256, 0.6, 0.6), Balanced is (1024, 0.7, 0.7), Long is (2048, 0.8, 0.8) |
| Messages.ContextWindow | bot.py:166-169 | the window has 1 + min(5, n) turns, n the history's length: the system turn "You are a helpful assistant." first, then the last min(5, n) history turns in chronological order |
| Messages.WindowOfEmpty | bot.py:166-169 | the window of an empty history is the system turn alone |
| Messages.WindowEndsWithNewest | bot.py:163-168 | the user turn appended just before the window is built is the window's last message |
| Messages.WindowSlides | bot.py:166-169 | appending a turn adds it to the window's end and, once five turns are kept, drops the oldest kept turn |
| Messages.WindowIgnoresOlder | bot.py:168 | turns older than the last five never reach a request |
| Whitespace.StripLeading | bot.py:162 | removes exactly the leading run of Python whitespace: the result is a suffix, everything dropped is whitespace, and it does not start with whitespace |
| Whitespace.StripTrailing | bot.py:162 | removes exactly the trailing run of Python whitespace: the result is a prefix, everything dropped is whitespace, and it does not end with whitespace |
| Whitespace.BlankIffAllSpace | bot.py:162 | an input is blank exactly when all its characters are whitespace, the empty input included |
| Whitespace.StripEmptyIffBlank | bot.py:162 | `input.strip()` is falsy exactly when the input is blank |
| Completion.GetCompletion | bot.py:33-69 | the reply is a text exactly when not streaming, and nothing exactly when a streaming call raised; a returned stream is handed back as is; a non-streaming failure becomes "An error occurred: " + message |
| Completion.FailureLooksLikeAnswer | bot.py:61-69 | without streaming, a failure yields the same reply as a model answer whose text is the error text |
| Completion.StreamFailureIsSignalled | bot.py:61-68 | in streaming mode the reply alone tells a failure from a success: two outcomes with the same reply either both raised or both returned |
| Streaming.FirstNone | bot.py:190-195 | the position of the first `None` chunk (or the stream's length): every chunk before it is present |
| Streaming.Fragments | bot.py:191-192 | yields only non-empty texts, at most one per chunk |
| Streaming.AccumulateStream | bot.py:186-195 | the accumulated text is the in-order concatenation of the non-empty delta contents before the first `None` chunk, and "" when the stream is missing |
| Streaming.AssembledAppend | bot.py:190-192 | on a stream without `None`, the text of two consecutive parts is the first part's text followed by the second's |
| Streaming.AssembledSnoc | bot.py:191-192 | one more present chunk adds its content exactly when that content is non-empty |
| Streaming.StopsAtNone | bot.py:194-195 | chunks after the first `None` chunk contribute nothing |
| Streaming.SkipsContentless | bot.py:191 | a chunk whose content is missing or empty contributes nothing |
| Streaming.PiecesReassemble | bot.py:190-192 | a stream that delivers a text's pieces one per chunk accumulates to their concatenation |
| Streaming.StreamingMatchesMessage | bot.py:61-63 | against a deterministic backend, the accumulated streamed text equals the non-streaming call's text |
| Session.ExchangeKeepsWellFormed | bot.py:163 | a non-blank exchange keeps the history alternating user and assistant turns, with no blank user turn |
| Session.NoSystemTurnInHistory | bot.py:199 | a well-formed history holds no system turn |
| Session.WindowHasOneSystemTurn | bot.py:166-169 | the window of a history without system turns has exactly one system turn, at its head |
| Session.ConversationStore.constructor | bot.py:73-74 | a new session starts with an empty history |
| Session.ConversationStore.Clear | bot.py:152-153 | "Clear Chat" empties the history whatever it held, so a second clear changes nothing; afterwards the window is the system turn alone |
| Session.ConversationStore.Submit | bot.py:162-199 | a blank input changes nothing and makes no call. Otherwise the history grows by exactly the raw user turn and then the assistant turn. The request carries the window ending with that user turn, the selected model's identifier, the profile's parameters and stream = true. The assistant text is the accumulated stream, or "" when the call failed. A well-formed history stays well formed |

## Left out

- The Streamlit rendering: the HTML/CSS banner, the sidebar widgets, spinner, placeholder, `st.rerun` and the reversed display order (bot.py:77-141, 143-151, 154, 201-211). They are presentation.
- Loading the environment and the startup API-key check (bot.py:8-14). This is process I/O; the model assumes a client exists.
- The Groq network call (bot.py:51-59) and `st.error` (bot.py:67). They are foreign library calls; the call's outcome is a parameter (`CallOutcome`). Its one assumption, `Delivers`, is that the library returns a stream exactly when one is asked for.
- Floating-point semantics of temperature and top_p. They are pass-through constants, kept as whole tenths.
- Session-state persistence across reruns and concurrent sessions. The model has one store object.
- Exceptions raised while iterating the stream (outside `get_completion`'s `try`), a chunk with an empty `choices` list, and a `None` message content in a non-streaming reply. The source handles none of these.
- Session.ConversationStore.Submit: keeps the history alternating only when nothing raises between the user append (bot.py:163) and the assistant append (bot.py:199). In the source, an exception while reading the stream ends the run between the two and leaves a user turn without an answer. The model does not have that path, and it accepts any starting history.
- Error kinds. The source catches any `Exception` and keeps only its text, so transport, authentication and API errors are not told apart here either.
- A window size other than 5. The source fixes it, so the model has no size parameter.
