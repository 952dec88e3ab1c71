/** A form component's state and the result of submitting it, shared by
    the sign-in, sign-up and new-article forms. */
module Forms {
  import opened Wrappers
  import opened BrowserTab
  import opened ApiMethods

  /** The form's field values and its `loading` flag. */
  datatype FormView<F> = FormView(values: F, loading: bool)

  /** The result of one submission: the tab afterwards, the form, and the
      request sent to the backend (none when validation stopped it). */
  datatype Step<F> = Step(browser: Browser, view: FormView<F>, sent: Option<Request>)

  /** The submit button: disabled while the form has errors or is already
      submitting. */
  predicate SubmitEnabled(isValid: bool, isSubmitting: bool) {
    isValid && !isSubmitting
  }
}
