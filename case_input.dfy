/** The case-submission page: a text area capped at 3000 characters, a
    counter of characters left, and a submit handler that validates the
    text and leaves it in browser storage for the result page. */
module CaseInput {
  import opened Wrappers
  import opened Text
  import opened Ui
  import opened BrowserStorage

  const MaxLength: nat := 3000
  /** The shortest text the submit handler accepts, counted before trimming. */
  const MinLength: nat := 50

  const EmptyCase := "Please enter case details before submitting"
  const ShortCase := "Please provide more detailed case information (minimum 50 characters)"
  const Submitted := "Case submitted successfully! Analyzing with Gemini AI..."
  const PredictionRoute := "/prediction-result"
  const HomeRoute := "/"

  /** The checks of `handleSubmit`, in order: white-space-only text first,
      then text whose raw, untrimmed length is under the minimum. */
  function SubmitError(text: string): (r: Option<string>)
    ensures r == Some(EmptyCase) <==> AllSpace(text)
    ensures r == Some(ShortCase) <==> !AllSpace(text) && |text| < MinLength
    ensures r == None <==> !AllSpace(text) && |text| >= MinLength
  {
    if Trim(text) == "" then Some(EmptyCase)
    else if |text| < MinLength then Some(ShortCase)
    else None
  }

  class CaseInputPage {
    var caseDetails: string
    var isSubmitting: bool
    const storage: Storage

    /** The text area never holds more than the cap. */
    ghost predicate Valid()
      reads this
    {
      |caseDetails| <= MaxLength
    }

    constructor (storage: Storage)
      ensures Valid() && caseDetails == "" && !isSubmitting && this.storage == storage
    {
      caseDetails := "";
      isSubmitting := false;
      this.storage := storage;
    }

    /** The text area's `onChange`: the typed value cut to the cap. */
    method OnChange(value: string)
      modifies this`caseDetails
      ensures Valid()
      ensures |value| <= MaxLength ==> caseDetails == value
      ensures |value| > MaxLength ==> caseDetails == value[..MaxLength]
    {
      caseDetails := Prefix(value, MaxLength);
    }

    /** `remainingChars`: what the cap still allows, between 0 and 3000. */
    function RemainingChars(): (r: int)
      reads this
      requires Valid()
      ensures 0 <= r <= MaxLength
      ensures r + |caseDetails| == MaxLength
    {
      MaxLength - |caseDetails|
    }

    /** The submit button's `disabled`: a submission is under way or the
        text is white space only. */
    function SubmitDisabled(): (d: bool)
      reads this
      ensures d <==> isSubmitting || AllSpace(caseDetails)
    {
      isSubmitting || Trim(caseDetails) == ""
    }

    /** `handleSubmit`: a rejected text raises its message and changes
        nothing; an accepted one marks the page as submitting and stores
        exactly the text under `submittedCase`. */
    method HandleSubmit() returns (feedback: Feedback)
      requires Valid()
      modifies this`isSubmitting, storage
      ensures Valid()
      ensures caseDetails == old(caseDetails)
      ensures SubmitError(caseDetails).Some? ==>
        && feedback == ErrorOnly(SubmitError(caseDetails).value)
        && isSubmitting == old(isSubmitting)
        && storage.items == old(storage.items)
      ensures SubmitError(caseDetails).None? ==>
        && feedback == SuccessTo(Submitted, PredictionRoute)
        && isSubmitting
        && storage.items == old(storage.items)[SubmittedCaseKey := caseDetails]
    {
      var error := SubmitError(caseDetails);
      if error.Some? {
        feedback := ErrorOnly(error.value);
        return;
      }
      isSubmitting := true;
      storage.SetItem(SubmittedCaseKey, caseDetails);
      feedback := SuccessTo(Submitted, PredictionRoute);
    }

    /** `handleLogout`: removes `currentUser` and no other key. */
    method HandleLogout() returns (feedback: Feedback)
      requires Valid()
      modifies storage
      ensures Valid()
      ensures storage.items == old(storage.items) - {CurrentUserKey}
      ensures feedback == SuccessTo("Logged out successfully!", HomeRoute)
    {
      storage.RemoveItem(CurrentUserKey);
      feedback := SuccessTo("Logged out successfully!", HomeRoute);
    }
  }

  /** What onChange and a submit do to a freshly opened page: after typing
      `value`, the submit is accepted exactly when the capped text passes
      the checks, and then storage holds that capped text. */
  method TypeAndSubmit(value: string, initial: map<string, string>) returns (accepted: bool, stored: map<string, string>)
    ensures var text := Prefix(value, MaxLength);
      && (accepted <==> !AllSpace(text) && |text| >= MinLength)
      && (accepted ==> stored == initial[SubmittedCaseKey := text])
      && (!accepted ==> stored == initial)
  {
    var storage := new Storage(initial);
    var page := new CaseInputPage(storage);
    page.OnChange(value);
    var feedback := page.HandleSubmit();
    accepted := page.isSubmitting;
    stored := storage.items;
  }
}
