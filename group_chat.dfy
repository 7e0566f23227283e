/**
 * The group chat panel: the message box, its send guard and key handling,
 * and the dividers between listed messages.
 */
module GroupChat {
  import opened Common

  /** `!message.trim()`: the box holds only white space. */
  predicate Blank(message: string)
  {
    Trim(message) == ""
  }

  /**
   * `handleSend`: a blank message is ignored; any other is cleared (the send
   * itself is not made).
   */
  function HandleSend(message: string): (next: string)
    ensures Blank(message) ==> next == message
    ensures !Blank(message) ==> next == ""
  {
    if Blank(message) then message else ""
  }

  /** The send button is disabled exactly when pressing it would change nothing. */
  function SendDisabled(message: string): (disabled: bool)
    ensures disabled <==> HandleSend(message) == message
  {
    TrimOfTrimmed("");
    Blank(message)
  }

  /** A message is blank exactly when it is all white space. */
  lemma BlankIffAllSpace(message: string)
    ensures Blank(message) <==> forall i :: 0 <= i < |message| ==> IsSpace(message[i])
  {
    TrimEmptyIffBlank(message);
  }

  /** The outcome of a key press in the box. */
  datatype KeyOutcome = KeyOutcome(message: string, preventDefault: bool)

  /** `handleKeyPress`: Enter without Shift sends; Shift+Enter and other keys fall through. */
  function HandleKeyPress(message: string, key: string, shiftKey: bool): (o: KeyOutcome)
    ensures o.preventDefault <==> key == "Enter" && !shiftKey
    ensures o.preventDefault ==> o.message == HandleSend(message)
    ensures !o.preventDefault ==> o.message == message
  {
    if key == "Enter" && !shiftKey then KeyOutcome(HandleSend(message), true)
    else KeyOutcome(message, false)
  }

  /** A divider follows the message at `index` of `count` unless it is the last one. */
  predicate DividerAfter(index: nat, count: nat)
  {
    index < count - 1
  }

  /** The number of dividers drawn after the first `k` of `count` messages. */
  function DividersUpTo(k: nat, count: nat): nat
  {
    if k == 0 then 0 else DividersUpTo(k - 1, count) + (if DividerAfter(k - 1, count) then 1 else 0)
  }

  lemma {:induction false} DividersBeforeLast(k: nat, count: nat)
    requires k < count
    ensures DividersUpTo(k, count) == k
  {
    if k > 0 {
      DividersBeforeLast(k - 1, count);
    }
  }

  /** `count` messages are separated by `count - 1` dividers, and none follows the last. */
  lemma DividerCount(count: nat)
    ensures DividersUpTo(count, count) == if count == 0 then 0 else count - 1
    ensures count > 0 ==> !DividerAfter(count - 1, count)
  {
    if count > 0 {
      DividersBeforeLast(count - 1, count);
    }
  }
}
