/** The agronomist chat endpoint's keyword responder and the interaction record it saves. */
module AgronomyViews {
  import opened Wrappers
  import opened Text

  const MaizeAnswer := "Maize requires well-drained soil with pH 5.5-7.0. Ensure adequate nitrogen fertilizer application at planting and top dressing."
  const PestAnswer := "For pest control, integrated pest management is recommended. Could you describe the symptoms or upload a photo?"
  const WaterAnswer := "Most crops require consistent moisture. Drip irrigation is efficient for water conservation."
  const DefaultAnswer := "That's an interesting question. As an AI Agronomist, I recommend checking our Crop Guides for specific details or consulting a local expert."

  /** The canned answer for a query, chosen by the first keyword group the lower-cased query
      mentions: maize, then pests or disease, then water or irrigation. The context plays no
      part in the choice. */
  function MockResponse(query: string, context: string): (answer: string)
    ensures Contains(Lower(query), "maize") ==> answer == MaizeAnswer
    ensures !Contains(Lower(query), "maize") && (Contains(Lower(query), "pest") || Contains(Lower(query), "disease"))
      ==> answer == PestAnswer
    ensures !Contains(Lower(query), "maize") && !Contains(Lower(query), "pest") && !Contains(Lower(query), "disease")
      && (Contains(Lower(query), "water") || Contains(Lower(query), "irrigation"))
      ==> answer == WaterAnswer
    ensures !Contains(Lower(query), "maize") && !Contains(Lower(query), "pest") && !Contains(Lower(query), "disease")
      && !Contains(Lower(query), "water") && !Contains(Lower(query), "irrigation")
      ==> answer == DefaultAnswer
  {
    var q := Lower(query);
    if Contains(q, "maize") then MaizeAnswer
    else if Contains(q, "pest") || Contains(q, "disease") then PestAnswer
    else if Contains(q, "water") || Contains(q, "irrigation") then WaterAnswer
    else DefaultAnswer
  }

  /** The answer does not depend on the context, and only on the query's lower-cased form. */
  lemma ResponseIgnoresContextAndCase(query: string, c1: string, c2: string)
    ensures MockResponse(query, c1) == MockResponse(query, c2)
    ensures MockResponse(query, c1) == MockResponse(Lower(query), c1)
  {
    LowerIdempotent(query);
  }

  /** Every answer is one of the four canned texts. */
  lemma ResponseIsCanned(query: string, context: string)
    ensures MockResponse(query, context) in {MaizeAnswer, PestAnswer, WaterAnswer, DefaultAnswer}
  {
  }

  /** A saved chat interaction. */
  datatype Recommendation = Recommendation(user: nat, query: string, response: string, context: string)

  /** The context used when the request gives none. */
  const DefaultContext := "general"

  /** A request text field as the serializer's CharField cleans it: surrounding white
      space is trimmed, and a missing field takes its default or is required, and a blank one
      is refused. */
  function CleanField(name: string, value: Option<string>, default: Option<string>): (r: Result<string, string>)
    ensures value.None? && default.None? ==> r == Failure(name + ": This field is required.")
    ensures value.None? && default.Some? ==> r == Success(default.value)
    ensures value.Some? && Trim(value.value) == "" ==> r == Failure(name + ": This field may not be blank.")
    ensures value.Some? && Trim(value.value) != "" ==> r == Success(Trim(value.value))
  {
    match value
    case None => if default.Some? then Success(default.value) else Failure(name + ": This field is required.")
    case Some(v) =>
      if Trim(v) == "" then Failure(name + ": This field may not be blank.") else Success(Trim(v))
  }

  /** The record saved for a chat request: exactly the cleaned query, the answer generated
      for it and the cleaned context. A request whose query is missing or blank, or whose
      context is blank, is refused and nothing is saved. */
  function Chat(user: nat, query: Option<string>, context: Option<string>): (r: Result<Recommendation, string>)
    ensures r.Success? <==> CleanField("query", query, None).Success? && CleanField("context", context, Some(DefaultContext)).Success?
    ensures query.None? ==> r.Failure?
    ensures r.Success? ==>
      && r.value.user == user
      && r.value.query == Trim(query.value)
      && r.value.query != ""
      && r.value.context == (if context.None? then DefaultContext else Trim(context.value))
      && r.value.response == MockResponse(r.value.query, r.value.context)
  {
    var q := CleanField("query", query, None);
    var c := CleanField("context", context, Some(DefaultContext));
    if q.Failure? then Failure(q.error)
    else if c.Failure? then Failure(c.error)
    else Success(Recommendation(user, q.value, MockResponse(q.value, c.value), c.value))
  }
}
