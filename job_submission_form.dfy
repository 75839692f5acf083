/** The job submission form (frontend/src/components/JobSubmissionForm.tsx):
    the enabled state of the textarea and the button, and the button's
    label, as functions of the pending flag and the user's credits. */
module JobSubmissionForm {
  import Handlers

  datatype FormView = FormView(textareaDisabled: bool, buttonDisabled: bool, caption: string)

  const NotEnoughCredits := "Not Enough Credits"

  /** The textarea is disabled while a submission is pending; the button
      also when the user has less than one credit. The credit label wins
      over the pending label. */
  function Render(loading: bool, userCredits: int): (v: FormView)
    ensures v.textareaDisabled <==> loading
    ensures v.buttonDisabled <==> loading || userCredits < 1
    ensures v.caption == NotEnoughCredits <==> userCredits < 1
    ensures userCredits >= 1 ==> v.caption == (if loading then "Submitting..." else "Summarize")
  {
    var caption := if userCredits < 1 then NotEnoughCredits
                 else if loading then "Submitting..." else "Summarize";
    FormView(loading, loading || userCredits < 1, caption)
  }

  /** With 1 to 9 credits the idle form lets the user submit, although the
      server refuses any submission below 10 credits. */
  lemma CreditThresholdGap(userCredits: int)
    requires 1 <= userCredits < Handlers.MinimumCredits
    ensures !Render(false, userCredits).buttonDisabled
    ensures Render(false, userCredits).caption == "Summarize"
  {
  }
}
