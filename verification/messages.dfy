/**
 * Conversation turns and the bounded context window that is sent upstream:
 * one fixed system turn followed by the most recent turns of the history.
 */
module Messages {

  datatype Role = System | User | Assistant

  /** One message of a conversation, tagged with its speaker. */
  datatype Turn = Turn(role: Role, content: string)

  const SystemPrompt: string := "You are a helpful assistant."

  const SystemTurn: Turn := Turn(System, SystemPrompt)

  /** How many history turns the window keeps. */
  const ContextLength: nat := 5

  function Min(a: int, b: int): int { if a <= b then a else b }

  /** How many history turns a window over `history` carries. */
  function Kept(history: seq<Turn>): nat { Min(ContextLength, |history|) }

  /** The messages of one request: the system turn, then the last
      `Kept(history)` turns of the history, oldest first (Python's
      `history[-5:]`). */
  function ContextWindow(history: seq<Turn>): (w: seq<Turn>)
    ensures |w| == 1 + Kept(history)
    ensures w[0] == SystemTurn
    ensures forall i :: 1 <= i < |w| ==> w[i] == history[|history| - Kept(history) + i - 1]
  {
    [SystemTurn] + history[|history| - Kept(history)..]
  }

  /** After the history is cleared only the system turn is sent. */
  lemma WindowOfEmpty()
    ensures ContextWindow([]) == [SystemTurn]
  {
  }

  /** The turn appended last is the last message sent. */
  lemma WindowEndsWithNewest(history: seq<Turn>, t: Turn)
    ensures var w := ContextWindow(history + [t]); |w| >= 2 && w[|w| - 1] == t
  {
  }

  /** Appending one turn slides the window by one: the new turn enters at
      the end and, once the window is full, the oldest kept turn leaves. */
  lemma WindowSlides(history: seq<Turn>, t: Turn)
    ensures ContextWindow(history + [t]) ==
      [SystemTurn]
      + (if |history| < ContextLength then ContextWindow(history)[1..] else ContextWindow(history)[2..])
      + [t]
  {
  }

  /** Turns older than the last `ContextLength` never reach the request. */
  lemma WindowIgnoresOlder(older: seq<Turn>, recent: seq<Turn>)
    requires |recent| >= ContextLength
    ensures ContextWindow(older + recent) == ContextWindow(recent)
  {
  }
}
