/** The two pages joined through browser storage: what the result page
    shows after the case-input page has handled a submit. */
module Flows {
  import opened Wrappers
  import opened Text
  import opened BrowserStorage
  import opened GeminiService
  import opened CaseInput
  import opened PredictionResultPage

  /** Open the result page on the given storage and render it once the
      mount effect has run. */
  method OpenResultPage(storage: Storage, service: string -> Reply, parse: string -> Option<ParsedFields>)
    returns (redirect: Option<string>, screen: Screen)
    ensures !HasSubmission(storage.items) ==> redirect == Some(CaseInputRoute) && screen == Loading
    ensures HasSubmission(storage.items) ==>
      && redirect == None
      && screen.Report?
      && screen.prediction == Analyze(storage.items[SubmittedCaseKey], service, parse)
      && screen.summary == Summary(storage.items[SubmittedCaseKey])
      && 60 <= screen.prediction.probability <= 95
  {
    var page := new ResultPage(storage);
    redirect := page.Load(service, parse);
    screen := page.View();
  }

  /** Type `value` into the form, submit, then open the result page. An
      accepted text is the one analysed and summarised, and the probability
      shown is in [60, 95]; a rejected one leaves nothing stored, so the
      result page redirects and stays on its spinner. */
  method SubmitThenView(value: string, service: string -> Reply, parse: string -> Option<ParsedFields>)
    returns (accepted: bool, redirect: Option<string>, screen: Screen)
    ensures var text := Prefix(value, MaxLength);
      && (accepted <==> SubmitError(text).None?)
      && (accepted ==>
            && redirect == None
            && screen.Report?
            && screen.prediction == Analyze(text, service, parse)
            && screen.summary == Summary(text)
            && 60 <= screen.prediction.probability <= 95)
      && (!accepted ==> redirect == Some(CaseInputRoute) && screen == Loading)
  {
    var stored;
    accepted, stored := TypeAndSubmit(value, map[]);
    var storage := new Storage(stored);
    redirect, screen := OpenResultPage(storage, service, parse);
  }

  /** After "Submit Another Case" the result page, opened again, finds no
      submission and redirects without analysing. */
  method ResubmitClearsCase(items: map<string, string>, service: string -> Reply, parse: string -> Option<ParsedFields>)
    returns (redirect: Option<string>, screen: Screen)
    ensures redirect == Some(CaseInputRoute) && screen == Loading
  {
    var storage := new Storage(items);
    var first := new ResultPage(storage);
    var _ := first.SubmitAnother();
    var again := new ResultPage(storage);
    redirect := again.Load(service, parse);
    screen := again.View();
  }
}
