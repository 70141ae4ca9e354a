/**
 * The demo responder of the Dify integration: a keyword match on the lower-cased
 * message that picks one of four fixed replies, and a fixed prediction card.
 */
module DifyClient {
  import opened Text

  const Greeting := "Hello! I'm here to walk you through Patient 1's latest signals."
  const Advice := "Recommendation: reinforce sleep hygiene and keep hydration above 2L per day."
  const Forecast := "Forecast: low probability of stress escalation over the next 72 hours."
  const DemoNote := "Demo assistant note: I can react to keywords such as 'hello', 'advice', or 'predict'."

  predicate Greets(lower: string) { Contains(lower, "hello") || Contains(lower, "hi") }
  predicate AsksAdvice(lower: string) { Contains(lower, "advice") }
  predicate AsksPrediction(lower: string) { Contains(lower, "predict") }

  /**
   * `sendChatMessageDemo`: the tests are made in the order greeting, advice,
   * prediction, and the first that matches decides the reply.
   */
  function SendChatMessageDemo(message: string): (r: string)
    ensures r in {Greeting, Advice, Forecast, DemoNote}
    ensures r == Greeting <==> Greets(Lower(message))
    ensures r == Advice <==> !Greets(Lower(message)) && AsksAdvice(Lower(message))
    ensures r == Forecast <==> !Greets(Lower(message)) && !AsksAdvice(Lower(message)) && AsksPrediction(Lower(message))
    ensures r == DemoNote <==> !Greets(Lower(message)) && !AsksAdvice(Lower(message)) && !AsksPrediction(Lower(message))
  {
    var lower := Lower(message);
    if Greets(lower) then Greeting
    else if AsksAdvice(lower) then Advice
    else if AsksPrediction(lower) then Forecast
    else DemoNote
  }

  /** Lower-casing twice changes nothing. */
  lemma LowerIdempotent(s: string)
    ensures Lower(Lower(s)) == Lower(s)
  {
    assert forall k :: 0 <= k < |s| ==> LowerChar(LowerChar(s[k])) == LowerChar(s[k]);
  }

  /** Matching ignores letter case: two messages equal up to case get the same reply. */
  lemma DemoIgnoresCase(a: string, b: string)
    requires Lower(a) == Lower(b)
    ensures SendChatMessageDemo(a) == SendChatMessageDemo(b)
  {
  }

  /** In particular a message and its lower-cased form get the same reply. */
  lemma DemoOfLowered(message: string)
    ensures SendChatMessageDemo(Lower(message)) == SendChatMessageDemo(message)
  {
    LowerIdempotent(message);
    DemoIgnoresCase(Lower(message), message);
  }

  /** The card returned by `getPredictionDemo`. */
  datatype Prediction = Prediction(title: string, detail: string)

  /** `getPredictionDemo` takes no input and always returns the same card. */
  function GetPredictionDemo(): (r: Prediction)
    ensures r.title == "Forecast result"
    ensures r.detail == "Stable outlook for the upcoming week with low risk events."
  {
    Prediction("Forecast result", "Stable outlook for the upcoming week with low risk events.")
  }
}
