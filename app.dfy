/**
 * The top-level session: whether the results page is shown, which report it
 * shows, the warning that accompanies the example report, and the loading flag.
 */
module App {
  import opened Wrappers
  import opened Validation
  import ValidationApi
  import ResultsPage

  /** The warning shown when the example report replaces a failed request. */
  const FallbackError := "Failed to validate idea. Using example data for demonstration."

  /** What the session renders. */
  datatype Screen = LandingScreen | ResultsScreen(data: ValidationResult, error: Option<string>)

  /**
   * The results page shows its warning banner for the session's fallback
   * error, and none when the session holds no error.
   */
  lemma FallbackBanner()
    ensures ResultsPage.ShowsErrorBanner(Some(FallbackError))
    ensures !ResultsPage.ShowsErrorBanner(None)
  {
    assert |FallbackError| > 0;
  }

  /** The session state of `App`. */
  class Session {
    /** `exampleValidationResult`, the report shown in place of a failed one. */
    const example: ValidationResult
    var showResults: bool
    var validationData: Option<ValidationResult>
    var error: Option<string>
    var isLoading: bool

    /**
     * The results page is only requested with a report in hand, and the only
     * error text the session ever holds is the fallback warning.
     */
    predicate Valid()
      reads this
    {
      (showResults ==> validationData.Some?)
      && (error.Some? ==> error.value == FallbackError)
    }

    /** The session starts on the landing page with nothing loaded. */
    constructor (example: ValidationResult)
      ensures Valid()
      ensures this.example == example
      ensures !showResults && validationData.None? && error.None? && !isLoading
    {
      this.example := example;
      showResults := false;
      validationData := None;
      error := None;
      isLoading := false;
    }

    /** The synchronous part of `handleValidate`, before the request is awaited. */
    method StartValidation()
      requires Valid()
      modifies this
      ensures Valid()
      ensures isLoading && error.None?
      ensures showResults == old(showResults) && validationData == old(validationData)
    {
      isLoading := true;
      error := None;
    }

    /**
     * The rest of `handleValidate`, once the request has settled: a report is
     * shown either way, the example one (with the warning) when the request failed.
     */
    method FinishValidation(outcome: Result<ValidationResult, ValidationApi.FetchError>)
      requires Valid()
      modifies this
      ensures Valid()
      ensures showResults && !isLoading
      ensures outcome.Success? ==> validationData == Some(outcome.value) && error == old(error)
      ensures outcome.Failure? ==> validationData == Some(example) && error == Some(FallbackError)
      ensures outcome.Failure? ==> ResultsPage.ShowsErrorBanner(error)
    {
      FallbackBanner();
      match outcome {
        case Success(result) =>
          validationData := Some(result);
          showResults := true;
        case Failure(_) =>
          error := Some(FallbackError);
          validationData := Some(example);
          showResults := true;
      }
      isLoading := false;
    }

    /**
     * `handleValidate(idea)` when nothing else is in flight: the results page
     * opens with the fetched report and no warning, or with the example report
     * and the warning exactly when the fetch failed.
     */
    method HandleValidate(transport: ValidationApi.Transport)
      requires Valid()
      requires ValidationApi.WellTypedTransport(transport)
      modifies this
      ensures Valid()
      ensures showResults && !isLoading
      ensures var outcome := ValidationApi.FetchValidationResult(transport);
              (error.None? <==> outcome.Success?)
              && validationData == Some(if outcome.Success? then outcome.value else example)
      ensures CurrentScreen().ResultsScreen?
      ensures ResultsPage.ShowsErrorBanner(CurrentScreen().error) <==>
                ValidationApi.FetchValidationResult(transport).Failure?
    {
      FallbackBanner();
      StartValidation();
      FinishValidation(ValidationApi.FetchValidationResult(transport));
    }

    /** The "Back" button: the landing page again, with the report and warning dropped. */
    method HandleBack()
      requires Valid()
      modifies this
      ensures Valid()
      ensures !showResults && validationData.None? && error.None?
      ensures isLoading == old(isLoading)
      ensures CurrentScreen() == LandingScreen
    {
      showResults := false;
      validationData := None;
      error := None;
    }

    /** `showResults && validationData ? <ResultsPage …/> : <LandingPage …/>`. */
    function CurrentScreen(): (s: Screen)
      reads this
      ensures s.ResultsScreen? <==> showResults && validationData.Some?
      ensures s.ResultsScreen? ==> s.data == validationData.value && s.error == error
    {
      if showResults && validationData.Some? then ResultsScreen(validationData.value, error)
      else LandingScreen
    }

    /** Under the session invariant the results page is shown exactly when requested. */
    lemma ScreenFollowsFlag()
      requires Valid()
      ensures CurrentScreen().ResultsScreen? <==> showResults
    {
    }
  }
}
