/** The result page: on load it reads the submitted case from browser
    storage (or sends the user back to the form), asks for the analysis, and
    renders the prediction with an icon and colour chosen by its type and a
    shortened copy of the case text. */
module PredictionResultPage {
  import opened Wrappers
  import opened Text
  import opened Ui
  import opened BrowserStorage
  import opened GeminiService

  const CaseInputRoute := "/case-input"
  const HomeRoute := "/"
  const SummaryLength: nat := 500
  const Ellipsis := "..."

  datatype IconShape = CheckCircle | XCircle | AlertTriangle

  datatype Icon = Icon(shape: IconShape, colorClass: string)

  const FavorableGradient := "from-emerald-600 to-green-600 border-emerald-400/30"
  const UnfavorableGradient := "from-red-600 to-rose-600 border-red-400/30"
  const OtherGradient := "from-amber-600 to-orange-600 border-amber-400/30"

  /** `getOutcomeIcon`: a check for "favorable", a cross for "unfavorable",
      a warning sign for every other string. */
  function OutcomeIcon(outcomeType: string): (i: Icon)
    ensures i.shape == CheckCircle <==> outcomeType == "favorable"
    ensures i.shape == XCircle <==> outcomeType == "unfavorable"
    ensures i.shape == AlertTriangle <==> outcomeType != "favorable" && outcomeType != "unfavorable"
  {
    match outcomeType
    case "favorable" => Icon(CheckCircle, "text-emerald-400")
    case "unfavorable" => Icon(XCircle, "text-red-400")
    case _ => Icon(AlertTriangle, "text-amber-400")
  }

  /** `getOutcomeColor`: emerald, red, or amber for every other string. */
  function OutcomeColor(outcomeType: string): (c: string)
    ensures c == FavorableGradient <==> outcomeType == "favorable"
    ensures c == UnfavorableGradient <==> outcomeType == "unfavorable"
    ensures c == OtherGradient <==> outcomeType != "favorable" && outcomeType != "unfavorable"
  {
    match outcomeType
    case "favorable" => FavorableGradient
    case "unfavorable" => UnfavorableGradient
    case _ => OtherGradient
  }

  /** The icon's colour and the card's gradient always name the same hue. */
  lemma IconAndColorAgree(outcomeType: string)
    ensures OutcomeIcon(outcomeType).colorClass == "text-emerald-400" <==> OutcomeColor(outcomeType) == FavorableGradient
    ensures OutcomeIcon(outcomeType).colorClass == "text-red-400" <==> OutcomeColor(outcomeType) == UnfavorableGradient
    ensures OutcomeIcon(outcomeType).colorClass == "text-amber-400" <==> OutcomeColor(outcomeType) == OtherGradient
  {
  }

  /** A type outside the three declared values, which the normaliser lets
      through, is drawn exactly like "neutral"; so is the fallback record. */
  lemma UnknownTypeLooksNeutral(outcomeType: string)
    requires outcomeType != "favorable" && outcomeType != "unfavorable"
    ensures OutcomeIcon(outcomeType) == OutcomeIcon("neutral")
    ensures OutcomeColor(outcomeType) == OutcomeColor("neutral")
    ensures OutcomeIcon(Fallback().outcomeType) == OutcomeIcon("neutral")
  {
  }

  /** The case summary: the first 500 characters, with "..." appended only
      when something was cut. */
  function Summary(caseDetails: string): (r: string)
    ensures |caseDetails| <= SummaryLength ==> r == caseDetails
    ensures |caseDetails| > SummaryLength ==> r == caseDetails[..SummaryLength] + Ellipsis
    ensures |r| <= SummaryLength + |Ellipsis|
    ensures r[..if |caseDetails| <= SummaryLength then |caseDetails| else SummaryLength] ==
            caseDetails[..if |caseDetails| <= SummaryLength then |caseDetails| else SummaryLength]
  {
    Prefix(caseDetails, SummaryLength) + (if |caseDetails| > SummaryLength then Ellipsis else "")
  }

  /** `!localStorage.getItem("submittedCase")` fails: the key is present
      and its value is not the empty string. */
  predicate HasSubmission(items: map<string, string>)
    ensures HasSubmission(items) ==> SubmittedCaseKey in items && |items[SubmittedCaseKey]| > 0
    ensures SubmittedCaseKey !in items ==> !HasSubmission(items)
  {
    SubmittedCaseKey in items && items[SubmittedCaseKey] != ""
  }

  /** What the component renders. */
  datatype Screen =
    | Loading
    | Blank
    | Report(prediction: PredictionResult, icon: Icon, gradient: string, summary: string)

  class ResultPage {
    var caseDetails: string
    var isLoading: bool
    var prediction: Option<PredictionResult>
    const storage: Storage

    constructor (storage: Storage)
      ensures caseDetails == "" && isLoading && prediction == None && this.storage == storage
    {
      caseDetails := "";
      isLoading := true;
      prediction := None;
      this.storage := storage;
    }

    /** The mount effect. With no submitted case it only redirects to the
        form: no analysis is made and the page state is left as it was.
        Otherwise it analyses exactly the stored text and stops loading;
        the analysis never throws, so the `catch` branch cannot be taken
        and a prediction is always set. Storage is only read. */
    method Load(service: string -> Reply, parse: string -> Option<ParsedFields>) returns (redirect: Option<string>)
      modifies this`caseDetails, this`isLoading, this`prediction
      ensures !HasSubmission(storage.items) ==>
        && redirect == Some(CaseInputRoute)
        && caseDetails == old(caseDetails) && isLoading == old(isLoading) && prediction == old(prediction)
      ensures HasSubmission(storage.items) ==>
        && redirect == None
        && caseDetails == storage.items[SubmittedCaseKey]
        && prediction == Some(Analyze(caseDetails, service, parse))
        && !isLoading
    {
      var submittedCase := storage.GetItem(SubmittedCaseKey);
      if submittedCase.None? || submittedCase.value == "" {
        redirect := Some(CaseInputRoute);
        return;
      }
      caseDetails := submittedCase.value;
      var result := Analyze(submittedCase.value, service, parse);
      prediction := Some(result);
      isLoading := false;
      redirect := None;
    }

    /** The render: a spinner while loading, nothing when no prediction is
        set, otherwise the report. */
    function View(): (s: Screen)
      reads this
      ensures s.Loading? <==> isLoading
      ensures s.Blank? <==> !isLoading && prediction.None?
      ensures s.Report? ==>
        && prediction == Some(s.prediction)
        && s.icon == OutcomeIcon(s.prediction.outcomeType)
        && s.icon.shape == (if s.prediction.outcomeType == "favorable" then CheckCircle
                            else if s.prediction.outcomeType == "unfavorable" then XCircle
                            else AlertTriangle)
        && s.gradient == OutcomeColor(s.prediction.outcomeType)
        && s.summary == Summary(caseDetails)
        && |s.summary| <= SummaryLength + |Ellipsis|
    {
      if isLoading then Loading
      else match prediction
        case None => Blank
        case Some(p) => Report(p, OutcomeIcon(p.outcomeType), OutcomeColor(p.outcomeType), Summary(caseDetails))
    }

    /** `handleLogout`: removes `currentUser` and `submittedCase`, nothing
        else. */
    method HandleLogout() returns (feedback: Feedback)
      modifies storage
      ensures storage.items == old(storage.items) - {CurrentUserKey, SubmittedCaseKey}
      ensures feedback == SuccessTo("Logged out successfully!", HomeRoute)
    {
      storage.RemoveItem(CurrentUserKey);
      storage.RemoveItem(SubmittedCaseKey);
      feedback := SuccessTo("Logged out successfully!", HomeRoute);
    }

    /** "Submit Another Case": removes only `submittedCase` and goes back to
        the form. */
    method SubmitAnother() returns (route: string)
      modifies storage
      ensures storage.items == old(storage.items) - {SubmittedCaseKey}
      ensures route == CaseInputRoute
    {
      storage.RemoveItem(SubmittedCaseKey);
      route := CaseInputRoute;
    }
  }
}
