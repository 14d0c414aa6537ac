/** The report shape the client works with once a response has been normalised. */
module Validation {

  /** One startup-validation report: seven markdown text blocks, the idea and a message log. */
  datatype ValidationResult = ValidationResult(
    startupIdea: string,
    ideaAnalysis: string,
    swotAnalysis: string,
    marketAnalysis: string,
    competitionAnalysis: string,
    riskAssessment: string,
    advisorRecommendations: string,
    advice: string,
    messages: seq<string>)
}
