/**
 * The per-session conversation store and the submit cycle of one turn:
 * guard on blank input, append the user turn, build the window, look up
 * the profile, call `get_completion` in streaming mode, accumulate the
 * stream, append the assistant turn.
 */
module Session {
  import opened Wrappers
  import opened Presets
  import opened Messages
  import opened Whitespace
  import opened Completion
  import opened Streaming

  /** The shape every history the front end builds has: user and assistant
      turns alternate, starting with a user turn and ending with an
      assistant turn, and no user turn is blank. */
  ghost predicate WellFormedHistory(h: seq<Turn>)
    decreases |h|
  {
    h == [] ||
    (|h| >= 2 && h[|h| - 2].role == User && !IsBlank(h[|h| - 2].content) &&
     h[|h| - 1].role == Assistant && WellFormedHistory(h[..|h| - 2]))
  }

  /** A submit keeps the history well formed. */
  lemma ExchangeKeepsWellFormed(h: seq<Turn>, input: string, answer: string)
    requires WellFormedHistory(h) && !IsBlank(input)
    ensures WellFormedHistory(h + [Turn(User, input), Turn(Assistant, answer)])
  {
  }

  /** A well-formed history holds no system turn, so the window sent
      upstream holds exactly one, at its head. */
  lemma {:induction false} NoSystemTurnInHistory(h: seq<Turn>)
    requires WellFormedHistory(h)
    ensures forall i :: 0 <= i < |h| ==> h[i].role != System
    decreases |h|
  {
    if h != [] {
      var p := h[..|h| - 2];
      NoSystemTurnInHistory(p);
      forall i | 0 <= i < |h| ensures h[i].role != System {
        if i < |p| { assert h[i] == p[i]; }
      }
    }
  }

  /** The window of a history without system turns has exactly one, at
      its head. */
  lemma WindowHasOneSystemTurn(h: seq<Turn>)
    requires forall i :: 0 <= i < |h| ==> h[i].role != System
    ensures var w := ContextWindow(h);
            forall i :: 0 <= i < |w| ==> (w[i].role == System <==> i == 0)
  {
  }

  /** The assistant text a streaming call with this outcome leaves behind. */
  function AssistantText(outcome: CallOutcome): string
    requires Delivers(true, outcome)
  {
    if outcome.Raised? then "" else Assembled(outcome.response.chunks)
  }

  class ConversationStore {
    var history: seq<Turn>

    ghost predicate Valid()
      reads this
    {
      WellFormedHistory(history)
    }

    /** A new session starts with an empty history. */
    constructor ()
      ensures Valid() && history == []
    {
      history := [];
    }

    /** "Clear Chat": the history becomes empty, whatever it held. */
    method Clear()
      modifies this
      ensures Valid() && history == []
      ensures ContextWindow(history) == [SystemTurn]
    {
      history := [];
    }

    /** One press of "Send" with the given input, response profile and
        model, against a call that ends with `outcome`. Returns the request
        sent upstream, or None when no call was made. */
    method Submit(input: string, profile: string, modelName: string, outcome: CallOutcome)
      returns (sent: Option<Request>)
      requires profile in ResponseOptions && modelName in ModelOptions
      requires Delivers(true, outcome)
      modifies this
      ensures old(Valid()) ==> Valid()
      ensures IsBlank(input) ==> sent == None && history == old(history)
      ensures !IsBlank(input) ==>
        var user := Turn(User, input);
        sent == Some(Request(ContextWindow(old(history) + [user]), ModelId(modelName), ProfileSampling(profile), true)) &&
        history == old(history) + [user, Turn(Assistant, AssistantText(outcome))]
      ensures sent.Some? ==> sent.value.messages[|sent.value.messages| - 1] == Turn(User, input)
      ensures sent.Some? && outcome.Raised? ==> history[|history| - 1] == Turn(Assistant, "")
    {
      ghost var wasValid := Valid();
      StripEmptyIffBlank(input);
      if Strip(input) == [] {
        return None;
      }
      history := history + [Turn(User, input)];
      var messages := ContextWindow(history);
      WindowEndsWithNewest(old(history), Turn(User, input));
      var params := ResponseOptions[profile];
      var request := Request(messages, ModelOptions[modelName], params, true);
      var reply := GetCompletion(request, outcome);
      var response := if reply.StreamReply? then Some(reply.chunks) else None;
      var assistantResponse := AccumulateStream(response);
      history := history + [Turn(Assistant, assistantResponse)];
      assert history == old(history) + [Turn(User, input), Turn(Assistant, assistantResponse)];
      if wasValid {
        ExchangeKeepsWellFormed(old(history), input, assistantResponse);
      }
      sent := Some(request);
    }
  }
}
