/**
 * The play-request dialog: the message sent when the user submits, and what
 * submitting does to the dialog.
 */
module PlayRequestDialog {

  /** What a handler does, in order: call the `onSubmit` or `onClose` prop, or set the message box. */
  datatype Effect = CallOnSubmit(message: string) | CallOnClose | SetMessage(text: string)

  /** The message sent when the box is left empty. */
  function DefaultMessage(sport: string): string
  {
    "Would you like to play " + sport + "?"
  }

  /** `handleSubmit`: `onSubmit(message || default)`, then the box is cleared. */
  function HandleSubmit(message: string, sport: string): (effects: seq<Effect>)
    ensures |effects| == 2 && effects[1] == SetMessage("")
    ensures effects[0].CallOnSubmit?
    ensures message == "" ==> effects[0].message == "Would you like to play " + sport + "?"
    ensures message != "" ==> effects[0].message == message
  {
    [CallOnSubmit(if message == "" then DefaultMessage(sport) else message), SetMessage("")]
  }

  /** The number of `onSubmit` calls in a run of effects. */
  function SubmitCalls(effects: seq<Effect>): nat
  {
    if effects == [] then 0 else (if effects[0].CallOnSubmit? then 1 else 0) + SubmitCalls(effects[1..])
  }

  /** A submit calls `onSubmit` once, never closes the dialog, and leaves the box empty. */
  lemma SubmitOnceWithoutClosing(message: string, sport: string)
    ensures SubmitCalls(HandleSubmit(message, sport)) == 1
    ensures CallOnClose !in HandleSubmit(message, sport)
    ensures HandleSubmit(message, sport)[|HandleSubmit(message, sport)| - 1] == SetMessage("")
  {
    var effects := HandleSubmit(message, sport);
    assert effects[1..][1..] == [];
    assert SubmitCalls(effects[1..]) == 0;
  }

  /** The message sent is never empty, even for a sport with an empty name. */
  lemma SentMessageNonEmpty(message: string, sport: string)
    ensures HandleSubmit(message, sport)[0].message != ""
  {
  }
}
