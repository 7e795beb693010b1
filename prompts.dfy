/**
 * The prompt box of `src/components/PromptWriter.tsx`: a text input whose
 * send handler ignores blank prompts and otherwise puts a mock answer at the
 * head of the conversation history, and a placeholder that cycles through a
 * fixed list of hints.
 */
module Prompts {
  import opened Text
  import opened Cycle

  /** `placeholderPrompts`. */
  const Placeholders: seq<string> := [
    "Describe your idea... (e.g., \"Build a SaaS landing page with user auth\")",
    "What do you want to create today?",
    "Type a prompt like \"Generate a chatbot for customer support\"",
    "How can AI help you build faster?"
  ]

  /** One history entry: what was sent and the answer shown under it. */
  datatype Entry = Entry(prompt: string, response: string)

  const ResponsePrefix := "AI: \""
  const ResponseSuffix := "\" (This is a mock response!)"

  // ---------------------------------------------------------------------------
  // The mock answer and the history
  // ---------------------------------------------------------------------------

  /** The mock answer: the prompt, untrimmed, quoted between a fixed prefix and suffix. */
  function MockResponse(prompt: string): string
  {
    ResponsePrefix + prompt + ResponseSuffix
  }

  /** The answer is the prefix, the prompt and the suffix, so the prompt can be read back from it. */
  lemma MockResponseQuotes(prompt: string)
    ensures |MockResponse(prompt)| == |ResponsePrefix| + |prompt| + |ResponseSuffix|
    ensures MockResponse(prompt)[..|ResponsePrefix|] == ResponsePrefix
    ensures MockResponse(prompt)[|ResponsePrefix| + |prompt|..] == ResponseSuffix
    ensures MockResponse(prompt)[|ResponsePrefix|..|ResponsePrefix| + |prompt|] == prompt
  {
  }

  /** Different prompts get different answers. */
  lemma MockResponseInjective(a: string, b: string)
    requires MockResponse(a) == MockResponse(b)
    ensures a == b
  {
    MockResponseQuotes(a);
    MockResponseQuotes(b);
  }

  /** The history after one answered prompt: the new entry first, the older ones after it. */
  function Answered(history: seq<Entry>, prompt: string): (h: seq<Entry>)
    ensures |h| == |history| + 1
    ensures h[0].prompt == prompt && h[0].response == MockResponse(prompt)
    ensures h[1..] == history
  {
    [Entry(prompt, MockResponse(prompt))] + history
  }

  /** The send button's `disabled`: while waiting for an answer, or while the prompt is blank. */
  predicate SendDisabled(loading: bool, prompt: string) {
    loading || IsBlank(prompt)
  }

  /** The input's `disabled`: while waiting for an answer. */
  predicate InputDisabled(loading: bool) {
    loading
  }

  /**
   * Send is enabled exactly when nothing is pending and the prompt holds a
   * non-white-space character; while the input is disabled, so is Send.
   */
  lemma SendEnabledIff(loading: bool, prompt: string)
    ensures !SendDisabled(loading, prompt) <==> !loading && exists i :: 0 <= i < |prompt| && !IsSpace(prompt[i])
    ensures InputDisabled(loading) ==> SendDisabled(loading, prompt)
  {
    BlankIffAllSpace(prompt);
  }

  // ---------------------------------------------------------------------------
  // The placeholder rotation
  // ---------------------------------------------------------------------------

  /** As many steps as the list is long bring every entry back. */
  lemma FullCycle(xs: seq<string>, i: nat)
    requires Distinct(xs) && i < |xs|
    ensures Rotate(xs, xs[i], |xs|) == xs[i]
  {
    var n := |xs|;
    RotateToLast(xs, i);
    WrapAround(xs, i);
    RotateThrough(xs, xs[i], xs[n - 1], xs[i], n - 1 - i, i + 1, n);
  }

  lemma PlaceholdersDistinct()
    ensures Distinct(Placeholders)
  {
    assert |Placeholders[0]| == 72 && |Placeholders[2]| == 60;
    assert Placeholders[1][0] == 'W' && Placeholders[3][0] == 'H';
  }

  /** The interval's update of the placeholder. */
  function NextPlaceholder(prev: string): string
  {
    Successor(Placeholders, prev)
  }

  /**
   * The hint after the `i`-th one is the `(i + 1) mod 4`-th, a string that is
   * not a hint is followed by the first, and four ticks bring every hint back.
   */
  lemma PlaceholderRotation(i: nat, p: string, stranger: string)
    requires i < |Placeholders| && p in Placeholders && stranger !in Placeholders
    ensures NextPlaceholder(Placeholders[i]) == Placeholders[(i + 1) % 4]
    ensures NextPlaceholder(stranger) == Placeholders[0]
    ensures Rotate(Placeholders, p, 4) == p
  {
    HintAfter(i);
    SuccessorOfStranger(Placeholders, stranger);
    PlaceholdersDistinct();
    CycleBack(Placeholders, p);
  }

  lemma HintAfter(i: nat)
    requires i < |Placeholders|
    ensures NextPlaceholder(Placeholders[i]) == Placeholders[(i + 1) % 4]
  {
    PlaceholdersDistinct();
    SuccessorOfEntry(Placeholders, i);
  }

  /** Every entry of a list without repeats comes back after a full cycle. */
  lemma CycleBack(xs: seq<string>, p: string)
    requires Distinct(xs) && p in xs
    ensures Rotate(xs, p, |xs|) == p
  {
    FullCycle(xs, IndexOf(xs, p));
  }

  // ---------------------------------------------------------------------------
  // The component
  // ---------------------------------------------------------------------------

  /** The component's state: `prompt`, `history`, `loading` and `placeholder`. */
  class PromptWriter {
    var prompt: string
    var history: seq<Entry>
    var loading: bool
    var placeholder: string

    /** The placeholder shown is always one of the hints. */
    ghost predicate Valid()
      reads this
    {
      placeholder in Placeholders
    }

    constructor ()
      ensures Valid()
      ensures prompt == "" && history == [] && !loading && placeholder == Placeholders[0]
    {
      prompt := "";
      history := [];
      loading := false;
      placeholder := Placeholders[0];
    }

    /** The input's `onChange`. */
    method Type(text: string)
      requires Valid()
      modifies this
      ensures Valid()
      ensures prompt == text
      ensures history == old(history) && loading == old(loading) && placeholder == old(placeholder)
    {
      prompt := text;
    }

    /**
     * `handleSend`, its answer delay as one step: a blank prompt changes
     * nothing; any other is answered, put first in the history, and the box
     * is cleared and released.
     */
    method Send()
      requires Valid()
      modifies this
      ensures Valid() && placeholder == old(placeholder)
      ensures IsBlank(old(prompt)) ==>
        prompt == old(prompt) && history == old(history) && loading == old(loading)
      ensures !IsBlank(old(prompt)) ==>
        history == Answered(old(history), old(prompt)) && prompt == "" && !loading
    {
      if !IsBlank(prompt) {
        history := Answered(history, prompt);
        prompt := "";
        loading := false;
      }
    }

    /** One tick of the placeholder interval. */
    method Tick()
      requires Valid()
      modifies this
      ensures Valid()
      ensures placeholder == NextPlaceholder(old(placeholder))
      ensures prompt == old(prompt) && history == old(history) && loading == old(loading)
    {
      SuccessorIsModular(Placeholders, placeholder);
      placeholder := NextPlaceholder(placeholder);
    }
  }
}
