/** The modal application form (its component is also JobApplicationForm),
    opened for one job. Its submission is simulated like the standalone form's,
    except that the reset comes 2 s after a success and also calls `onClose`. */
module JobApplication {
  import opened Wrappers
  import opened FormValidation

  const SUBMISSION_FAILED: string := "Submission failed. Please try again later."

  class JobApplicationForm {
    /** The props. `closeRequests` counts the calls to `onClose`. */
    const isOpen: bool
    const jobId: int
    var closeRequests: nat

    var formData: FormData
    var isSubmitting: bool
    var error: string
    var success: bool

    constructor (isOpen: bool, jobId: int)
      ensures this.isOpen == isOpen && this.jobId == jobId && closeRequests == 0
      ensures formData == EmptyForm && !isSubmitting && error == "" && !success
    {
      this.isOpen, this.jobId, closeRequests := isOpen, jobId, 0;
      formData, isSubmitting, error, success := EmptyForm, false, "", false;
    }

    /** The modal renders nothing while it is closed. */
    predicate Renders()
    {
      isOpen
    }

    /** handleChange: only the named field takes the new value. */
    method HandleChange(field: Field, value: string)
      modifies this
      ensures formData == SetField(old(formData), field, value)
      ensures isSubmitting == old(isSubmitting) && error == old(error) && success == old(success)
      ensures closeRequests == old(closeRequests)
    {
      formData := SetField(formData, field, value);
    }

    /** handleFileChange: only `files` changes. */
    method HandleFileChange(files: seq<string>)
      modifies this
      ensures formData == old(formData).(files := Some(files))
      ensures isSubmitting == old(isSubmitting) && error == old(error) && success == old(success)
      ensures closeRequests == old(closeRequests)
    {
      formData := formData.(files := Some(files));
    }

    /** handleSubmit: a rejected form only sets `error` (nothing is submitted
        and the modal is not closed); an accepted one starts submitting. */
    method HandleSubmit() returns (timerArmed: bool)
      modifies this
      ensures timerArmed <==> Validate(old(formData)) == Accepted
      ensures formData == old(formData) && success == old(success) && closeRequests == old(closeRequests)
      ensures !timerArmed ==> error == Validate(old(formData)).message && isSubmitting == old(isSubmitting)
      ensures timerArmed ==> isSubmitting && error == ""
    {
      var verdict := Validate(formData);
      if verdict.Rejected? {
        error := verdict.message;
        return false;
      }
      isSubmitting := true;
      error := "";
      timerArmed := true;
    }

    /** The outcome timer. */
    method CompleteSubmission(succeeded: bool) returns (resetArmed: bool)
      modifies this
      ensures resetArmed == succeeded
      ensures !isSubmitting && formData == old(formData) && closeRequests == old(closeRequests)
      ensures succeeded ==> success && error == old(error)
      ensures !succeeded ==> error == SUBMISSION_FAILED && success == old(success)
    {
      if succeeded {
        success := true;
      } else {
        error := SUBMISSION_FAILED;
      }
      isSubmitting := false;
      resetArmed := succeeded;
    }

    /** The reset timer: the form is emptied and then `onClose` is called once. */
    method ResetAndClose()
      modifies this
      ensures !success && formData == EmptyForm
      ensures closeRequests == old(closeRequests) + 1
      ensures isSubmitting == old(isSubmitting) && error == old(error)
    {
      success := false;
      formData := EmptyForm;
      closeRequests := closeRequests + 1;
    }
  }
}
