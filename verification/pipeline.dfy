/**
 * The request handler `evaluate_lesson` of app.py, without its web framework:
 * reject a blank explanation, build the query, ask the model once, reject a
 * blank reply, extract the JSON span, decode it (an undecodable span counts
 * as the empty object) and adapt the result to the feedback schema.
 *
 * The model and `json.loads` are parameters: `llm` maps the query to the text
 * of the reply, and `decode` returns None exactly where `json.loads` raises
 * `JSONDecodeError`.
 */
module Pipeline {
  import opened Wrappers
  import opened Text
  import opened Json
  import opened Extract
  import opened Adapter

  const QueryHead: string := "Topic: "
  const QueryMiddle: string := "\n\nUser's explanation:\n"
  const QueryTail: string := "\n\nPlease evaluate according to the rubric."

  const EmptyExplanationMessage: string := "Explanation cannot be empty."
  const EmptyResponseMessage: string := "Empty response from LLM."

  /** The query string sent to the model, with the topic and explanation in place. */
  function BuildQuery(topic: string, explanation: string): (q: string)
    ensures |q| == |QueryHead| + |topic| + |QueryMiddle| + |explanation| + |QueryTail|
    ensures q[..|QueryHead|] == QueryHead
    ensures OccursAt(topic, q, |QueryHead|)
    ensures OccursAt(QueryMiddle, q, |QueryHead| + |topic|)
    ensures OccursAt(explanation, q, |QueryHead| + |topic| + |QueryMiddle|)
    ensures q[|q| - |QueryTail|..] == QueryTail
  {
    QueryHead + topic + QueryMiddle + explanation + QueryTail
  }

  /** What the handler renders. */
  datatype Outcome =
    | Rejected(message: string)             // the page is shown again with this error
    | Graded(feedback: map<string, Value>)  // the adapted mapping handed to `LessonFeedback`
    | NotAMapping(decoded: Value)           // `raw_dict.get` raises: the request fails

  /** The outcome, and every query that was sent to the model, in order. */
  datatype Evaluation = Evaluation(outcome: Outcome, queries: seq<string>)

  /**
   * Lines 105-114 of the handler: extract the span, decode it (an undecodable
   * span counts as `{}`), and adapt what was decoded.
   */
  function Interpret(rawText: string, decode: string -> Option<Value>): (o: Outcome)
    ensures o.Graded? ==> o.feedback.Keys == SchemaKeys
  {
    var jsonText := ExtractJson(rawText);
    var rawDict := match decode(jsonText) case None => JObj(map[]) case Some(v) => v;
    match rawDict
    case JObj(fields) => Graded(Adapt(fields))
    case _ => NotAMapping(rawDict)
  }

  /** `evaluate_lesson(request, topic, explanation)`. */
  function Evaluate(topic: string, explanation: string,
                    llm: string -> string, decode: string -> Option<Value>): (e: Evaluation)
    ensures e.queries == if IsBlank(explanation) then [] else [BuildQuery(topic, explanation)]
    ensures IsBlank(explanation) <==> e.outcome == Rejected(EmptyExplanationMessage)
    ensures e.outcome.Graded? ==> e.outcome.feedback.Keys == SchemaKeys
  {
    if Strip(explanation) == [] then
      Evaluation(Rejected(EmptyExplanationMessage), [])
    else
      var query := BuildQuery(topic, explanation);
      var rawText := llm(query);
      if Strip(rawText) == [] then
        Evaluation(Rejected(EmptyResponseMessage), [query])
      else
        Evaluation(Interpret(rawText, decode), [query])
  }

  /** After the head, the first line break of the query is the one that ends the topic. */
  lemma QueryTopicEndsAtFirstLineBreak(topic: string, explanation: string)
    requires '\n' !in topic
    ensures FirstIndexOf(BuildQuery(topic, explanation)[|QueryHead|..], '\n') == |topic|
  {
    var u := BuildQuery(topic, explanation)[|QueryHead|..];
    assert u[|topic|] == '\n';
    assert forall k :: 0 <= k < |topic| ==> u[k] == topic[k];
  }

  /**
   * A topic without line breaks can be read back from the query: the first
   * line break after the head ends the topic, so distinct requests give
   * distinct queries.
   */
  lemma BuildQueryInjective(t1: string, e1: string, t2: string, e2: string)
    requires '\n' !in t1 && '\n' !in t2
    requires BuildQuery(t1, e1) == BuildQuery(t2, e2)
    ensures t1 == t2 && e1 == e2
  {
    var q := BuildQuery(t1, e1);
    var h := |QueryHead|;
    QueryTopicEndsAtFirstLineBreak(t1, e1);
    QueryTopicEndsAtFirstLineBreak(t2, e2);
    var m := h + |t1| + |QueryMiddle|;
    assert e1 == q[m..m + |e1|] == e2;
  }

  /**
   * A blank explanation is rejected before any query exists: the model is
   * never asked, so the outcome is the same whatever it would have answered.
   */
  lemma EvaluateBlankExplanation(topic: string, explanation: string,
                                 llm1: string -> string, llm2: string -> string,
                                 decode: string -> Option<Value>)
    requires IsBlank(explanation)
    ensures Evaluate(topic, explanation, llm1, decode).queries == []
    ensures Evaluate(topic, explanation, llm1, decode).outcome == Rejected(EmptyExplanationMessage)
    ensures Evaluate(topic, explanation, llm1, decode) == Evaluate(topic, explanation, llm2, decode)
  {
  }

  /** Otherwise the model is asked exactly once, with the built query. */
  lemma EvaluateAsksOnce(topic: string, explanation: string,
                         llm: string -> string, decode: string -> Option<Value>)
    requires !IsBlank(explanation)
    ensures Evaluate(topic, explanation, llm, decode).queries == [BuildQuery(topic, explanation)]
    ensures OccursAt(explanation, Evaluate(topic, explanation, llm, decode).queries[0],
                     |QueryHead| + |topic| + |QueryMiddle|)
  {
  }

  /** With a non-blank explanation and reply, the outcome is the interpreted reply. */
  lemma EvaluateInterpretsReply(topic: string, explanation: string,
                                llm: string -> string, decode: string -> Option<Value>)
    requires !IsBlank(explanation)
    requires !IsBlank(llm(BuildQuery(topic, explanation)))
    ensures Evaluate(topic, explanation, llm, decode).outcome
         == Interpret(llm(BuildQuery(topic, explanation)), decode)
  {
  }

  /** A reply that is empty or all whitespace is reported as an error. */
  lemma EvaluateBlankReply(topic: string, explanation: string,
                           llm: string -> string, decode: string -> Option<Value>)
    requires !IsBlank(explanation)
    requires IsBlank(llm(BuildQuery(topic, explanation)))
    ensures Evaluate(topic, explanation, llm, decode).outcome == Rejected(EmptyResponseMessage)
  {
  }

  /** A decoded object is adapted to the schema. */
  lemma EvaluateAdaptsDecodedObject(topic: string, explanation: string,
                                    llm: string -> string, decode: string -> Option<Value>,
                                    fields: map<string, Value>)
    requires !IsBlank(explanation)
    requires !IsBlank(llm(BuildQuery(topic, explanation)))
    requires decode(ExtractJson(llm(BuildQuery(topic, explanation)))) == Some(JObj(fields))
    ensures Evaluate(topic, explanation, llm, decode).outcome == Graded(Adapt(fields))
  {
  }

  /**
   * An extracted span that does not decode is not an error: it yields the
   * all-default feedback (grade 0, empty lists, the "Unknown Topic" and
   * "N/A" labels).
   */
  lemma EvaluateUndecodableReply(topic: string, explanation: string,
                                 llm: string -> string, decode: string -> Option<Value>)
    requires !IsBlank(explanation)
    requires !IsBlank(llm(BuildQuery(topic, explanation)))
    requires decode(ExtractJson(llm(BuildQuery(topic, explanation)))) == None
    ensures Evaluate(topic, explanation, llm, decode).outcome == Graded(Adapt(map[]))
    ensures Evaluate(topic, explanation, llm, decode).outcome.feedback == DefaultFeedback()
  {
    var reply := llm(BuildQuery(topic, explanation));
    EvaluateInterpretsReply(topic, explanation, llm, decode);
    assert Interpret(reply, decode) == Graded(Adapt(map[]));
    AdaptEmpty();
  }

  /**
   * A decoder that behaves like `json.loads`: a text that opens with `{`
   * decodes, if at all, to an object.
   */
  ghost predicate DecodesBracedToObjects(decode: string -> Option<Value>)
  {
    forall s :: |s| > 0 && s[0] == '{' && decode(s).Some? ==> decode(s).value.JObj?
  }

  /**
   * With such a decoder the handler never fails on what the model said:
   * once the explanation and the reply are not blank, it always produces
   * a feedback mapping with exactly the schema's keys.
   */
  lemma EvaluateAlwaysGrades(topic: string, explanation: string,
                             llm: string -> string, decode: string -> Option<Value>)
    requires DecodesBracedToObjects(decode)
    requires !IsBlank(explanation)
    requires !IsBlank(llm(BuildQuery(topic, explanation)))
    ensures Evaluate(topic, explanation, llm, decode).outcome.Graded?
    ensures Evaluate(topic, explanation, llm, decode).outcome.feedback.Keys == SchemaKeys
  {
    EvaluateInterpretsReply(topic, explanation, llm, decode);
    var s := ExtractJson(llm(BuildQuery(topic, explanation)));
    assert |s| > 0 && s[0] == '{';
  }

  /** Two replies with the same strip and the same interpretation lead to the same evaluation. */
  lemma EvaluateSameReplyMeaning(topic: string, explanation: string,
                                 llm1: string -> string, llm2: string -> string,
                                 decode: string -> Option<Value>)
    requires Strip(llm1(BuildQuery(topic, explanation))) == Strip(llm2(BuildQuery(topic, explanation)))
    requires Interpret(llm1(BuildQuery(topic, explanation)), decode)
          == Interpret(llm2(BuildQuery(topic, explanation)), decode)
    ensures Evaluate(topic, explanation, llm1, decode) == Evaluate(topic, explanation, llm2, decode)
  {
  }

  /** Whitespace around the reply changes neither its strip nor its interpretation. */
  lemma InterpretIgnoresPadding(w1: string, reply: string, w2: string, decode: string -> Option<Value>)
    requires IsBlank(w1) && IsBlank(w2)
    ensures Strip(w1 + reply + w2) == Strip(reply)
    ensures Interpret(w1 + reply + w2, decode) == Interpret(reply, decode)
  {
    StripIgnoresSurroundingSpace(w1, reply, w2);
    ExtractJsonIgnoresSurroundingSpace(w1, reply, w2);
  }

  /** Whitespace around the model's reply does not change the outcome. */
  lemma EvaluateIgnoresReplyPadding(topic: string, explanation: string,
                                    llm1: string -> string, llm2: string -> string,
                                    decode: string -> Option<Value>, w1: string, w2: string)
    requires IsBlank(w1) && IsBlank(w2)
    requires llm2(BuildQuery(topic, explanation)) == w1 + llm1(BuildQuery(topic, explanation)) + w2
    ensures Evaluate(topic, explanation, llm1, decode) == Evaluate(topic, explanation, llm2, decode)
  {
    InterpretIgnoresPadding(w1, llm1(BuildQuery(topic, explanation)), w2, decode);
    EvaluateSameReplyMeaning(topic, explanation, llm1, llm2, decode);
  }

  /** The fenced reply of the example below extracts to the object it wraps. */
  lemma FencedReplyExtracts(obj: string, reply: string)
    requires obj == "{" + "\"topic\":\"Photosynthesis\",\"numerical_grade\":85" + "}"
    requires reply == "Here you go:\n```json\n" + obj + "\n```"
    ensures !IsBlank(reply) && ExtractJson(reply) == obj
  {
    assert obj[0] == '{' && obj[|obj| - 1] == '}';
    var pre, post := "Here you go:\n```json\n", "\n```";
    assert !IsSpace(reply[0]) && !IsSpace(reply[|reply| - 1]);
    StripKeepsTrimmed(reply);
    assert '{' !in pre && '}' !in post;
    assert reply == pre + obj + post;
    ExtractJsonDropsSurroundingProse(pre, obj, post);
  }

  /**
   * End to end: a reply that wraps the object in prose and a markdown fence
   * still yields the object's topic and grade, with defaults elsewhere.
   */
  lemma EvaluateFencedReply(topic: string, explanation: string,
                            llm: string -> string, decode: string -> Option<Value>,
                            obj: string, reply: string, fields: map<string, Value>)
    requires obj == "{" + "\"topic\":\"Photosynthesis\",\"numerical_grade\":85" + "}"
    requires reply == "Here you go:\n```json\n" + obj + "\n```"
    requires fields == map["topic" := JStr("Photosynthesis"), "numerical_grade" := JInt(85)]
    requires !IsBlank(explanation)
    requires llm(BuildQuery(topic, explanation)) == reply
    requires decode(obj) == Some(JObj(fields))
    ensures Evaluate(topic, explanation, llm, decode).outcome.Graded?
    ensures Evaluate(topic, explanation, llm, decode).outcome.feedback["topic"] == JStr("Photosynthesis")
    ensures Evaluate(topic, explanation, llm, decode).outcome.feedback["numerical_grade"] == JInt(85)
    ensures Evaluate(topic, explanation, llm, decode).outcome.feedback["strengths"] == JArr([])
  {
    FencedReplyExtracts(obj, reply);
    EvaluateAdaptsDecodedObject(topic, explanation, llm, decode, fields);
    AdaptPhotosynthesis(fields);
  }
}
