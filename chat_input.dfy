/**
 * The message box of components/chat/ChatInput.tsx: when a send goes out,
 * what it carries, and what the box holds afterwards.
 */
module ChatInput {
  import opened Wrappers
  import opened Text

  /** The guard of `handleSend`. */
  predicate CanSend(message: string, isLoading: bool, disabled: bool)
  {
    Trim(message) != "" && !isLoading && !disabled
  }

  /** The send button's `disabled` expression. */
  predicate ButtonDisabled(message: string, isLoading: bool, disabled: bool)
  {
    Trim(message) == "" || isLoading || disabled
  }

  /** The button is disabled exactly when a send would be refused. */
  lemma ButtonDisabledIffRefused(message: string, isLoading: bool, disabled: bool)
    ensures ButtonDisabled(message, isLoading, disabled) <==> !CanSend(message, isLoading, disabled)
  {
  }

  /** A message of only white space is never sent. */
  lemma BlankNeverSent(message: string, isLoading: bool, disabled: bool)
    requires AllWhitespace(message)
    ensures !CanSend(message, isLoading, disabled)
  {
    TrimEmptyIffBlank(message);
  }

  class Box {
    /** The text area's content. */
    var message: string

    constructor ()
      ensures message == ""
    {
      message := "";
    }

    /** `onChange`. */
    method Type(text: string)
      modifies this
      ensures message == text
    {
      message := text;
    }

    /**
     * `handleSend`: `sent` is the argument `onSend` receives, if it is
     * called; the box is emptied only then.
     */
    method HandleSend(isLoading: bool, disabled: bool) returns (sent: Option<string>)
      modifies this
      ensures CanSend(old(message), isLoading, disabled) ==> sent == Some(Trim(old(message))) && message == ""
      ensures !CanSend(old(message), isLoading, disabled) ==> sent == None && message == old(message)
      ensures sent.Some? ==> sent.value != "" && Trim(sent.value) == sent.value
    {
      if Trim(message) != "" && !isLoading && !disabled {
        TrimTwice(message);
        sent := Some(Trim(message));
        message := "";
      } else {
        sent := None;
      }
    }

    /**
     * `handleKeyDown`: Enter without Shift sends (and the default new line
     * is suppressed); any other key changes nothing here.
     */
    method HandleKeyDown(key: string, shiftKey: bool, isLoading: bool, disabled: bool)
      returns (preventDefault: bool, sent: Option<string>)
      modifies this
      ensures preventDefault <==> key == "Enter" && !shiftKey
      ensures !preventDefault ==> sent == None && message == old(message)
      ensures preventDefault && CanSend(old(message), isLoading, disabled) ==> sent == Some(Trim(old(message))) && message == ""
      ensures preventDefault && !CanSend(old(message), isLoading, disabled) ==> sent == None && message == old(message)
    {
      preventDefault := key == "Enter" && !shiftKey;
      sent := None;
      if preventDefault {
        sent := HandleSend(isLoading, disabled);
      }
    }
  }

  /** Shift+Enter is a new line, not a send; Enter then sends the whole text, trimmed. */
  method ShiftEnterThenEnter(text: string) returns (first: Option<string>, second: Option<string>, left: string)
    requires Trim(text) != ""
    ensures first == None
    ensures second == Some(Trim(text)) && left == ""
  {
    var box := new Box();
    box.Type(text);
    var p1, p2;
    p1, first := box.HandleKeyDown("Enter", true, false, false);
    p2, second := box.HandleKeyDown("Enter", false, false, false);
    left := box.message;
  }
}
