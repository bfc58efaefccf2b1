/** The chat panel (the `ChatBot` component, frontend/src/ChatBot.jsx): it
    decides per question whether to prepend the detection context, and keeps
    an append-only log of the conversation. */
module ChatBot {
  import opened Common
  import opened Text

  /** The words that make a question about the scan (ChatBot.jsx:36). */
  const Triggers: seq<string> := ["tooth", "teeth", "wisdom", "xray", "x-ray", "image", "detect", "see", "bad", "pain"]

  const Greeting: string := "Hello! I am connected to GPT-4o, Gemini, Llama 3, and Claude. Ask me anything!"
  const ServerError: string := "Error communicating with server."

  datatype Sender = User | Bot

  /** `data.responses`: one answer per model; None stands for null or absent. */
  datatype ModelAnswers = ModelAnswers(gpt4: Option<string>, gemini: Option<string>, llama: Option<string>, claude: Option<string>)

  /** A `{type: "text", text, sender}` or a `{type: "multi", models}` entry. */
  datatype Message = TextMsg(text: string, sender: Sender) | MultiMsg(models: ModelAnswers)

  // ---------------------------------------------------------------------------
  // Context injection
  // ---------------------------------------------------------------------------

  /** Some word of `words` occurs in `s`, tried in order. */
  function AnyOccurs(s: string, words: seq<string>): bool
    decreases |words|
  {
    words != [] && (Contains(s, words[0]) || AnyOccurs(s, words[1..]))
  }

  /** AnyOccurs holds exactly when one of the words occurs at some position. */
  lemma {:induction false} AnyOccursIff(s: string, words: seq<string>)
    ensures AnyOccurs(s, words) <==> exists j, i :: 0 <= j < |words| && OccursAt(s, words[j], i)
    decreases |words|
  {
    if words != [] {
      ContainsIff(s, words[0]);
      AnyOccursIff(s, words[1..]);
      if AnyOccurs(s, words[1..]) {
        var j, i :| 0 <= j < |words| - 1 && OccursAt(s, words[1..][j], i);
        assert OccursAt(s, words[j + 1], i);
      }
      if exists j, i :: 0 <= j < |words| && OccursAt(s, words[j], i) {
        var j, i :| 0 <= j < |words| && OccursAt(s, words[j], i);
        if j > 0 {
          assert OccursAt(s, words[1..][j - 1], i);
        }
      }
    }
  }

  /** `triggers.some(t => input.toLowerCase().includes(t))`. */
  function IsRelevant(input: string): bool {
    AnyOccurs(Lower(input), Triggers)
  }

  /** An input is relevant exactly when some trigger occurs anywhere in its
      lower-cased text, even inside a longer word. */
  lemma RelevantIff(input: string)
    ensures IsRelevant(input) <==> exists j, i :: 0 <= j < |Triggers| && OccursAt(Lower(input), Triggers[j], i)
  {
    AnyOccursIff(Lower(input), Triggers);
  }

  /** Relevance ignores ASCII case. */
  lemma RelevanceIgnoresCase(input: string)
    ensures IsRelevant(Lower(input)) == IsRelevant(input)
  {
    LowerIdempotent(input);
  }

  /** `a` and `b` spell the same text up to ASCII case: at every position the
      characters are equal, or one is a capital and the other its lower-case
      letter. */
  predicate SameUpToCase(a: string, b: string) {
    && |a| == |b|
    && forall i :: 0 <= i < |a| ==>
         || a[i] == b[i]
         || (IsUpperAscii(a[i]) && b[i] as int == a[i] as int + 32)
         || (IsUpperAscii(b[i]) && a[i] as int == b[i] as int + 32)
  }

  /** Inputs that differ only in ASCII case are equally relevant. */
  lemma RelevanceCaseInsensitive(a: string, b: string)
    requires SameUpToCase(a, b)
    ensures IsRelevant(a) == IsRelevant(b)
  {
    forall i | 0 <= i < |a| ensures Lower(a)[i] == Lower(b)[i] {
      assert LowerChar(a[i]) == LowerChar(b[i]);
    }
    assert Lower(a) == Lower(b);
  }

  /** No word of `words` is contained in `s`, so none occurs. */
  lemma {:induction false} NoneOccurs(s: string, words: seq<string>)
    requires forall j :: 0 <= j < |words| ==> !Contains(s, words[j])
    ensures !AnyOccurs(s, words)
    decreases |words|
  {
    if words != [] {
      NoneOccurs(s, words[1..]);
    }
  }

  /** The matching is permissive: "pain" inside "painted" counts, and so do
      an upper-case "TEETH" and "teeth" inside a sentence. */
  lemma RelevanceExamples()
    ensures IsRelevant("painted")
    ensures IsRelevant("TEETH")
    ensures IsRelevant("How many teeth were found?")
  {
    var q := "How many teeth were found?";
    assert Lower(q)[9..14] == "teeth";
    assert OccursAt(Lower(q), Triggers[1], 9);
    RelevantIff(q);
    assert Triggers[9] == "pain";
    assert Lower("painted")[0..4] == "pain";
    assert OccursAt(Lower("painted"), Triggers[9], 0);
    RelevantIff("painted");
    assert Triggers[1] == "teeth";
    assert Lower("TEETH") == "teeth";
    assert OccursAt(Lower("TEETH"), Triggers[1], 0);
    RelevantIff("TEETH");
  }

  /** The `message` sent for `input`: the input prefixed with the detection
      context when there is a context and the input is relevant (ChatBot.jsx:42-44). */
  function FinalPrompt(input: string, detectionContext: string): string {
    if detectionContext != "" && IsRelevant(input) then
      "[Context: " + detectionContext + "] Question: " + input
    else
      input
  }

  /** The prompt differs from the typed input exactly when there is a context
      and the input is relevant, and then it is the bracketed context followed
      by the question. */
  lemma PromptAugmentedIff(input: string, detectionContext: string)
    ensures FinalPrompt(input, detectionContext) != input <==> detectionContext != "" && IsRelevant(input)
    ensures FinalPrompt(input, detectionContext) != input ==>
              FinalPrompt(input, detectionContext) == "[Context: " + detectionContext + "] Question: " + input
  {
    if detectionContext != "" && IsRelevant(input) {
      assert |FinalPrompt(input, detectionContext)| > |input|;
    }
  }

  /** The typed input, case preserved, always ends the prompt. */
  lemma PromptEndsWithInput(input: string, detectionContext: string)
    ensures var p := FinalPrompt(input, detectionContext);
            |input| <= |p| && p[|p| - |input|..] == input
  {
    var p := FinalPrompt(input, detectionContext);
    if p != input {
      var head := "[Context: " + detectionContext + "] Question: ";
      assert p == head + input;
      assert p[|head|..] == input;
    }
  }

  /** The statements of `handleSend` that pick the prompt (ChatBot.jsx:36-46),
      which compute FinalPrompt. */
  method ChoosePrompt(input: string, detectionContext: string) returns (finalPrompt: string)
    ensures finalPrompt == FinalPrompt(input, detectionContext)
  {
    var isRelevant := IsRelevant(input);
    finalPrompt := input;
    if detectionContext != "" && isRelevant {
      finalPrompt := "[Context: " + detectionContext + "] Question: " + input;
    }
  }

  /** A question about teeth carries the detection context. */
  lemma PromptExampleRelevant()
    ensures var q, ctx := "How many teeth were found?", "3 wisdom teeth detected";
            FinalPrompt(q, ctx) == "[Context: " + ctx + "] Question: " + q
  {
    RelevanceExamples();
  }

  /** Every trigger has one of the letters a, d, e, h, x, so an input whose
      lower-cased text has none of them is not relevant. */
  lemma WithoutTriggerLettersIrrelevant(input: string)
    requires var t := Lower(input); 'a' !in t && 'd' !in t && 'e' !in t && 'h' !in t && 'x' !in t
    ensures !IsRelevant(input)
  {
    var t := Lower(input);
    ContainsNeedsChar(t, Triggers[0], 4);
    ContainsNeedsChar(t, Triggers[1], 1);
    ContainsNeedsChar(t, Triggers[2], 3);
    ContainsNeedsChar(t, Triggers[3], 0);
    ContainsNeedsChar(t, Triggers[4], 0);
    ContainsNeedsChar(t, Triggers[5], 2);
    ContainsNeedsChar(t, Triggers[6], 0);
    ContainsNeedsChar(t, Triggers[7], 1);
    ContainsNeedsChar(t, Triggers[8], 1);
    ContainsNeedsChar(t, Triggers[9], 1);
    NoneOccurs(t, Triggers);
  }

  /** A question with none of the triggers in it. */
  lemma IrrelevanceExample()
    ensures !IsRelevant("Is it sunny?")
  {
    LowerSunQuestion();
    SunQuestionLetters();
    WithoutTriggerLettersIrrelevant("Is it sunny?");
  }

  lemma SunQuestionLetters()
    ensures var t := "is it sunny?"; 'a' !in t && 'd' !in t && 'e' !in t && 'h' !in t && 'x' !in t
  {
  }

  lemma LowerSunQuestion()
    ensures Lower("Is it sunny?") == "is it sunny?"
  {
  }

  /** An unrelated question goes out as typed, even with a detection context. */
  lemma PromptExampleIrrelevant()
    ensures FinalPrompt("Is it sunny?", "3 wisdom teeth detected") == "Is it sunny?"
  {
    IrrelevanceExample();
  }

  /** With an empty context the question goes out as typed, whatever it says. */
  lemma PromptWithoutContext(input: string)
    ensures FinalPrompt(input, "") == input
  {
  }

  // ---------------------------------------------------------------------------
  // The message log
  // ---------------------------------------------------------------------------

  class Chat {
    var messages: seq<Message>
    var input: string
    var loading: bool

    /** The log always opens with the greeting. */
    ghost predicate Valid()
      reads this
    {
      |messages| >= 1 && messages[0] == TextMsg(Greeting, Bot)
    }

    /** The panel as first mounted: the greeting only, an empty input, idle. */
    constructor ()
      ensures Valid() && messages == [TextMsg(Greeting, Bot)] && input == "" && !loading
    {
      messages, input, loading := [TextMsg(Greeting, Bot)], "", false;
    }

    /** The input box's `onChange`. */
    method SetInput(text: string)
      modifies this
      ensures input == text && messages == old(messages) && loading == old(loading)
    {
      input := text;
    }

    /** `handleSend` up to the `await`. A blank input changes nothing and
        sends nothing. Otherwise the input is logged as the user's message,
        the box is cleared, the loading flag is raised and the prompt chosen
        by FinalPrompt is returned as the request to send. */
    method Send(detectionContext: string) returns (request: Option<string>)
      requires Valid()
      modifies this
      ensures Valid()
      ensures Trim(old(input)) == [] ==> request == None && unchanged(this)
      ensures Trim(old(input)) != [] ==>
                && request == Some(FinalPrompt(old(input), detectionContext))
                && messages == old(messages) + [TextMsg(old(input), User)]
                && input == "" && loading
    {
      if Trim(input) == [] {
        return None;
      }
      var text := input;
      var finalPrompt := ChoosePrompt(text, detectionContext);
      messages := messages + [TextMsg(text, User)];
      input := "";
      loading := true;
      request := Some(finalPrompt);
    }

    /** `handleSend` after the `await`: exactly one entry goes at the end of
        the log, the four answers on a response or the error text on a
        failure; earlier entries stay as they were and the loading flag drops. */
    method Resolve(reply: Reply<ModelAnswers>)
      requires Valid()
      modifies this
      ensures Valid()
      ensures messages == old(messages) + [if reply.Arrived? then MultiMsg(reply.value) else TextMsg(ServerError, Bot)]
      ensures |messages| == |old(messages)| + 1 && messages[..|old(messages)|] == old(messages)
      ensures input == old(input) && !loading
    {
      if reply.Arrived? {
        messages := messages + [MultiMsg(reply.value)];
      } else {
        messages := messages + [TextMsg(ServerError, Bot)];
      }
      loading := false;
    }
  }
}
