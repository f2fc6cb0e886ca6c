/** The two demo tools served by the local tool server. Both are pure: the
    logging line each one prints is not modelled. */
module McpServer {
  import opened Values

  const Positive := "Positive"
  const SummaryPlaceholder := "Summary placeholder"
  const InvalidOperation := "Invalid operation"

  /** `text_analysis(text, operation)`: dispatches on the operation name only. */
  function TextAnalysis(text: string, operation: string): (r: string)
    ensures r == Positive <==> operation == "sentiment"
    ensures r == SummaryPlaceholder <==> operation == "summary"
    ensures r == InvalidOperation <==> operation != "sentiment" && operation != "summary"
  {
    if operation == "sentiment" then Positive
    else if operation == "summary" then SummaryPlaceholder
    else InvalidOperation
  }

  /** The analysed text never influences the answer, and the answer is one of
      three fixed strings. */
  lemma TextAnalysisIgnoresText(text1: string, text2: string, operation: string)
    ensures TextAnalysis(text1, operation) == TextAnalysis(text2, operation)
    ensures TextAnalysis(text1, operation) in {Positive, SummaryPlaceholder, InvalidOperation}
  {
  }

  /** The fixed record every query answers with. */
  const QueryAnswer: Value :=
    Dict([("product", Str("MacBook")), ("comments", Str("Product is exceeded our expectation"))])

  /** `data_query(query, source)`: a dictionary with the keys "result" and
      "source", in that order; "source" echoes the argument, "result" is the
      fixed answer whatever the query is. */
  function DataQuery(query: string, source: string): (r: Value)
    ensures r.Dict? && |r.entries| == 2
    ensures r.entries[0].0 == "result" && r.entries[1].0 == "source"
    ensures Lookup(r.entries, "source") == Some(Str(source))
    ensures Lookup(r.entries, "result") == Some(QueryAnswer)
  {
    Dict([("result", QueryAnswer), ("source", Str(source))])
  }

  /** Two queries against the same source give the same dictionary. */
  lemma DataQueryIgnoresQuery(query1: string, query2: string, source: string)
    ensures DataQuery(query1, source) == DataQuery(query2, source)
  {
  }
}
