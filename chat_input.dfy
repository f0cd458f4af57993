/**
 * The message composer (ChatInput.tsx): the draft, the send gate that lets a
 * request out only when the draft has content and no request is in flight,
 * the keyboard shortcut, the quick suggestions, and what is disabled when.
 */
module ChatInput {
  import opened Wrappers
  import opened Text

  /** The quick suggestions, in display order. */
  const Suggestions: seq<string> := [
    "Tell me about Bitcoin",
    "How does Ethereum work?",
    "What is blockchain?",
    "Compare BTC and ETH"
  ]

  /** `disabled={isLoading || !message.trim()}` on the send button. */
  predicate SendDisabled(draft: string, isLoading: bool) {
    isLoading || IsBlank(draft)
  }

  /** `disabled={isLoading}` on the textarea. */
  predicate TextareaDisabled(isLoading: bool) {
    isLoading
  }

  /** `message.length === 0 && !isLoading`: when the suggestion buttons are shown. */
  predicate SuggestionsVisible(draft: string, isLoading: bool) {
    |draft| == 0 && !isLoading
  }

  /** `(e.ctrlKey || e.metaKey) && e.key === 'Enter'`. */
  predicate IsSubmitShortcut(ctrlKey: bool, metaKey: bool, key: string) {
    (ctrlKey || metaKey) && key == "Enter"
  }

  /** While a request is in flight every way of sending is closed: the button, the textarea and the suggestions. */
  lemma NothingSendableWhileLoading(draft: string)
    ensures SendDisabled(draft, true) && TextareaDisabled(true) && !SuggestionsVisible(draft, true)
  {
  }

  /** Whenever suggestions are shown the send button is disabled: the draft is empty. */
  lemma SuggestionsOnlyWithEmptyDraft(draft: string, isLoading: bool)
    requires SuggestionsVisible(draft, isLoading)
    ensures SendDisabled(draft, isLoading) && draft == ""
  {
  }

  /** A whitespace-only draft keeps the button disabled though the suggestions are hidden. */
  lemma WhitespaceDraftBlocksSend()
    ensures SendDisabled(" ", false) && !SuggestionsVisible(" ", false)
  {
    IsBlankIff(" ");
  }

  /** Every suggestion would pass the send gate: none is blank. */
  lemma SuggestionsAreSendable()
    ensures forall i :: 0 <= i < |Suggestions| ==> !SendDisabled(Suggestions[i], false)
  {
    forall i | 0 <= i < |Suggestions|
      ensures !IsBlank(Suggestions[i])
    {
      LeadingTextNotBlank(Suggestions[i]);
    }
  }

  lemma LeadingTextNotBlank(s: string)
    requires |s| > 0 && ('A' <= s[0] <= 'Z')
    ensures !IsBlank(s)
  {
    IsBlankIff(s);
  }

  class Composer {
    /** The `message` state: the text in the textarea. */
    var draft: string

    constructor ()
      ensures draft == ""
    {
      draft := "";
    }

    /** `onChange` of the textarea; a disabled textarea delivers no change. */
    method Edit(text: string, isLoading: bool)
      modifies this
      ensures draft == if TextareaDisabled(isLoading) then old(draft) else text
    {
      if !isLoading {
        draft := text;
      }
    }

    /**
     * `handleSubmit`: sends the untrimmed draft and empties it exactly when
     * the send button is enabled; otherwise sends nothing and keeps the draft.
     */
    method HandleSubmit(isLoading: bool) returns (sent: Option<string>)
      modifies this
      ensures sent.Some? <==> !SendDisabled(old(draft), isLoading)
      ensures sent.Some? ==> sent.value == old(draft) && draft == ""
      ensures sent.None? ==> draft == old(draft)
    {
      if !IsBlank(draft) && !isLoading {
        sent := Some(draft);
        draft := "";
      } else {
        sent := None;
      }
    }

    /** `handleKeyDown`: only Ctrl+Enter or Cmd+Enter submits, through the same gate. */
    method HandleKeyDown(ctrlKey: bool, metaKey: bool, key: string, isLoading: bool) returns (sent: Option<string>)
      modifies this
      ensures sent.Some? <==> IsSubmitShortcut(ctrlKey, metaKey, key) && !SendDisabled(old(draft), isLoading)
      ensures sent.Some? ==> sent.value == old(draft) && draft == ""
      ensures sent.None? ==> draft == old(draft)
    {
      if IsSubmitShortcut(ctrlKey, metaKey, key) {
        sent := HandleSubmit(isLoading);
      } else {
        sent := None;
      }
    }

    /**
     * A click on suggestion `index`, sent through `handleSuggestionClick`. The
     * buttons are rendered only while the draft is empty and nothing is in
     * flight, so otherwise there is nothing to click and nothing is sent; the
     * draft is never touched.
     */
    method HandleSuggestionClick(index: nat, isLoading: bool) returns (sent: Option<string>)
      requires index < |Suggestions|
      ensures sent.Some? <==> SuggestionsVisible(draft, isLoading)
      ensures sent.Some? ==> sent.value == Suggestions[index] && !IsBlank(sent.value)
    {
      if SuggestionsVisible(draft, isLoading) {
        SuggestionsAreSendable();
        sent := Some(Suggestions[index]);
      } else {
        sent := None;
      }
    }
  }
}
