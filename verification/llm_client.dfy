/**
 * `SiliconFlow` in `llm_client.py`: the reply assembled from a chat-completion
 * response, and the two-call classification of a user turn. The HTTP request is a
 * collaborator: its outcome for a prompt is given as an `ApiResponse`.
 */
module LlmClient {
  import opened Wrappers
  import opened PyStr

  /** One element of `response.choices`, by what the loop's attribute tests find in it. */
  datatype Choice =
    | WithoutMessage            // no `message` attribute: skipped
    | WithoutContent            // a message without a `content` attribute: skipped
    | NullContent               // `content` is `None`: `+=` raises
    | WithContent(text: string)

  /** The outcome of `client.chat.completions.create`: it raised, or a response whose `choices` may be missing. */
  datatype ApiResponse = ApiRaised | Response(choices: Option<seq<Choice>>)

  /** What `_call` does: return a string or raise (it logs and re-raises every exception). */
  datatype CallOutcome = Returned(text: string) | Raised

  /** Returned when the response has no choices, instead of raising. */
  const NoResponseError := "Error: LLM did not return a valid response."

  /** Some choice makes the accumulation raise. */
  predicate HasNullContent(choices: seq<Choice>) {
    exists i :: 0 <= i < |choices| && choices[i] == NullContent
  }

  /** The texts of the choices that have content, in order. */
  function Texts(choices: seq<Choice>): seq<string> {
    if choices == [] then []
    else if choices[0].WithContent? then [choices[0].text] + Texts(choices[1..])
    else Texts(choices[1..])
  }

  /** The concatenation of a list of strings. */
  function Concat(ts: seq<string>): string {
    if ts == [] then "" else ts[0] + Concat(ts[1..])
  }

  lemma {:induction false} ConcatSnoc(ts: seq<string>, t: string)
    ensures Concat(ts + [t]) == Concat(ts) + t
    decreases |ts|
  {
    if ts != [] {
      assert (ts + [t])[1..] == ts[1..] + [t];
      ConcatSnoc(ts[1..], t);
    } else {
      assert ts + [t] == [t];
    }
  }

  lemma {:induction false} TextsSnoc(choices: seq<Choice>, c: Choice)
    ensures Texts(choices + [c]) == Texts(choices) + (if c.WithContent? then [c.text] else [])
    decreases |choices|
  {
    if choices != [] {
      assert (choices + [c])[1..] == choices[1..] + [c];
      TextsSnoc(choices[1..], c);
    } else {
      assert [c][1..] == [];
    }
  }

  /**
   * The specification of `_call`: an API error is re-raised; a response with no
   * choices gives the fixed error text; otherwise the contents of all choices are
   * concatenated in order, unless one is `None`, which raises. Stop tokens, when
   * given, are applied by `enforceStop` (`enforce_stop_tokens`).
   */
  function CallResult(response: ApiResponse, stop: Option<seq<string>>, enforceStop: (string, seq<string>) -> string): CallOutcome {
    match response
    case ApiRaised => Raised
    case Response(choices) =>
      if choices.None? || choices.value == [] then Returned(NoResponseError)
      else if HasNullContent(choices.value) then Raised
      else
        var content := Concat(Texts(choices.value));
        Returned(if stop.Some? then enforceStop(content, stop.value) else content)
  }

  /** `_call`, with its loop accumulating `content` over the choices. */
  method Call(response: ApiResponse, stop: Option<seq<string>>, enforceStop: (string, seq<string>) -> string)
    returns (out: CallOutcome)
    ensures out == CallResult(response, stop, enforceStop)
    ensures response.Response? && (response.choices.None? || response.choices.value == []) ==>
      out == Returned(NoResponseError)
    ensures (response.Response? && response.choices.Some? && response.choices.value != []
             && !HasNullContent(response.choices.value) && stop.None?) ==>
      out == Returned(Concat(Texts(response.choices.value)))
  {
    if response.ApiRaised? {
      return Raised;
    }
    if response.choices.None? || response.choices.value == [] {
      return Returned(NoResponseError);
    }
    var choices := response.choices.value;
    var content := "";
    for i := 0 to |choices|
      invariant content == Concat(Texts(choices[..i]))
      invariant forall k :: 0 <= k < i ==> choices[k] != NullContent
    {
      assert choices[..i + 1] == choices[..i] + [choices[i]];
      TextsSnoc(choices[..i], choices[i]);
      match choices[i]
      case WithContent(text) =>
        ConcatSnoc(Texts(choices[..i]), text);
        content := content + text;
      case NullContent =>
        return Raised;
      case _ =>
        assert Texts(choices[..i]) + [] == Texts(choices[..i]);
    }
    assert choices[..|choices|] == choices;
    if stop.Some? {
      content := enforceStop(content, stop.value);
    }
    return Returned(content);
  }

  /** `simple_call(p)`: `_call(p)` with no stop tokens, so the text is never cut. */
  function SimpleCall(response: ApiResponse): (out: CallOutcome)
    ensures forall enforceStop: (string, seq<string>) -> string :: out == CallResult(response, None, enforceStop)
  {
    CallResult(response, None, (s, _) => s)
  }

  /** The two prompts the classifier sends; their fixed template text is not modelled. */
  datatype Prompt = ClassifyPrompt(question: string) | ChatPrompt(question: string)

  /** The label whose presence in the classification reply marks general conversation. */
  const GeneralLabel := "普通对话"

  /** The returned pair: the kind ("general" or "data") and the answer text. */
  datatype Classification = Classification(kind: string, answer: string)

  /**
   * `classify_conversation`: "general" exactly when the first reply contains the
   * general label (containment, not equality) and the second call then succeeds, with
   * that call's reply as the answer; otherwise "data" with an empty answer and, when
   * the label was absent, no second call. Any raised call fails open to "data".
   */
  function ClassifyConversation(question: string, api: Prompt -> ApiResponse): (c: Classification)
    ensures c.kind == "general" || c.kind == "data"
    ensures c.kind == "data" ==> c.answer == ""
    ensures c.kind == "general" <==>
      SimpleCall(api(ClassifyPrompt(question))).Returned?
      && Contains(SimpleCall(api(ClassifyPrompt(question))).text, GeneralLabel)
      && SimpleCall(api(ChatPrompt(question))).Returned?
    ensures c.kind == "general" ==> c.answer == SimpleCall(api(ChatPrompt(question))).text
  {
    match SimpleCall(api(ClassifyPrompt(question)))
    case Raised => Classification("data", "")
    case Returned(reply) =>
      if Contains(reply, GeneralLabel) then
        match SimpleCall(api(ChatPrompt(question)))
        case Raised => Classification("data", "")
        case Returned(answer) => Classification("general", answer)
      else Classification("data", "")
  }

  /** An API error during classification yields ("data", ""). */
  lemma ClassifyFailsOpen(question: string, api: Prompt -> ApiResponse)
    requires api(ClassifyPrompt(question)) == ApiRaised || api(ChatPrompt(question)) == ApiRaised
    ensures ClassifyConversation(question, api) == Classification("data", "")
  {
  }

  /** A reply that only contains the label among other text still counts as general conversation. */
  lemma {:induction false} LabelContainmentSuffices(question: string, api: Prompt -> ApiResponse, chat: string)
    requires api(ClassifyPrompt(question)) == Response(Some([WithContent("回答：" + GeneralLabel + "。")]))
    requires api(ChatPrompt(question)) == Response(Some([WithContent(chat)]))
    ensures ClassifyConversation(question, api) == Classification("general", chat)
  {
    var reply := "回答：" + GeneralLabel + "。";
    assert Texts([WithContent(reply)]) == [reply];
    assert Texts([WithContent(chat)]) == [chat];
    assert Concat([reply]) == reply;
    assert Concat([chat]) == chat;
    assert Contains(reply[3..], GeneralLabel) by { assert reply[3..][..|GeneralLabel|] == GeneralLabel; }
    assert Contains(reply[2..], GeneralLabel) by { assert reply[2..][1..] == reply[3..]; }
    assert Contains(reply[1..], GeneralLabel) by { assert reply[1..][1..] == reply[2..]; }
    assert Contains(reply, GeneralLabel);
  }

  /** A response without choices makes the classifier choose "data": the error text has no label. */
  lemma {:induction false} NoChoicesMeansData(question: string, api: Prompt -> ApiResponse)
    requires api(ClassifyPrompt(question)) == Response(Some([]))
    ensures ClassifyConversation(question, api) == Classification("data", "")
  {
    var response := api(ClassifyPrompt(question));
    assert SimpleCall(response) == Returned(NoResponseError);
    assert forall k :: 0 <= k < |NoResponseError| ==> NoResponseError[k] < '\U{80}';
    NoLabelInAscii(NoResponseError);
  }

  /** A string of ASCII characters cannot contain the (non-ASCII) general label. */
  lemma {:induction false} NoLabelInAscii(s: string)
    requires forall k :: 0 <= k < |s| ==> s[k] < '\U{80}'
    ensures !Contains(s, GeneralLabel)
    decreases |s|
  {
    if |s| > 0 {
      assert !IsPrefix(GeneralLabel, s) by {
        assert s[0] != GeneralLabel[0];
        if |GeneralLabel| <= |s| { assert s[..|GeneralLabel|][0] == s[0]; }
      }
      NoLabelInAscii(s[1..]);
    }
  }
}
