/** The standalone application form (its component is JobApplicationForm).
    The simulated submission is two timers: after 2 s the outcome arrives
    (`Math.random() > 0.2`, here a parameter), and after a success a further
    3 s later the form is reset. */
module ApplyForm {
  import opened Wrappers
  import opened FormValidation

  const SUBMISSION_FAILED: string := "Submission failed. Please try again later."

  class JobApplicationForm {
    var formData: FormData
    var isSubmitting: bool
    var error: string
    var success: bool

    constructor ()
      ensures formData == EmptyForm && !isSubmitting && error == "" && !success
    {
      formData, isSubmitting, error, success := EmptyForm, false, "", false;
    }

    /** handleChange: only the named field takes the new value. */
    method HandleChange(field: Field, value: string)
      modifies this
      ensures formData == SetField(old(formData), field, value)
      ensures isSubmitting == old(isSubmitting) && error == old(error) && success == old(success)
    {
      formData := SetField(formData, field, value);
    }

    /** handleFileChange: only `files` changes. */
    method HandleFileChange(files: seq<string>)
      modifies this
      ensures formData == old(formData).(files := Some(files))
      ensures isSubmitting == old(isSubmitting) && error == old(error) && success == old(success)
    {
      formData := formData.(files := Some(files));
    }

    /** handleSubmit: a rejected form only sets `error`; an accepted one starts
        submitting, clears `error` and arms the outcome timer. */
    method HandleSubmit() returns (timerArmed: bool)
      modifies this
      ensures timerArmed <==> Validate(old(formData)) == Accepted
      ensures formData == old(formData) && success == old(success)
      ensures !timerArmed ==> error == Validate(old(formData)).message && isSubmitting == old(isSubmitting)
      ensures timerArmed ==> isSubmitting && error == ""
    {
      var verdict := Validate(formData);
      if verdict.Rejected? {
        error := verdict.message;
        return false;
      }
      isSubmitting := true;
      error := "";
      timerArmed := true;
    }

    /** The outcome timer: success shows the banner and arms the reset timer,
        failure sets `error`; either way submitting ends. */
    method CompleteSubmission(succeeded: bool) returns (resetArmed: bool)
      modifies this
      ensures resetArmed == succeeded
      ensures !isSubmitting && formData == old(formData)
      ensures succeeded ==> success && error == old(error)
      ensures !succeeded ==> error == SUBMISSION_FAILED && success == old(success)
    {
      if succeeded {
        success := true;
      } else {
        error := SUBMISSION_FAILED;
      }
      isSubmitting := false;
      resetArmed := succeeded;
    }

    /** The reset timer: the banner goes and every field is emptied. */
    method ResetAfterSuccess()
      modifies this
      ensures !success && formData == EmptyForm
      ensures formData.cv == "" && formData.motivationLetter == "" && formData.contact == "" && formData.note == ""
      ensures formData.files.None?
      ensures isSubmitting == old(isSubmitting) && error == old(error)
    {
      success := false;
      formData := EmptyForm;
    }
  }
}
