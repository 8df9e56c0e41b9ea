# Lesson-evaluation response normalisation, in Dafny

The lesson-evaluation web service grades a free-text lesson explanation by
asking a large language model for a JSON verdict. The model's reply is
untrusted text. It may be wrapped in prose or a markdown fence, it may use
other field names, leave fields out, or not be JSON at all. `app.py` turns it
into the eleven-field `LessonFeedback` record in three steps. This project
models those steps as pure Dafny functions and proves what they guarantee.

- `extract_json` (module `Extract`, on top of `Text`): strip the reply the way
  Python's `str.strip()` does. Then take the first match of `\{.*\}` under
  `re.DOTALL`: the span from the first `{` to the last `}`. If there is no
  such span, return `"{}"`. The regular expression is modelled through the
  first/last index of a character. A separate declarative definition,
  `IsSearchResult` (leftmost start, then greedy end), is proved to agree with it.
- `adapt_feedback` (module `Adapter`, on top of `Json`): map a decoded JSON
  object to exactly the eleven schema keys.
  - `topic`, `letter_grade` and the four list fields use plain `dict.get(k, default)`.
  - The four scores and `calculation` use `get(k) or get(alias, default)`.
    This falls through on any Python-falsy value.
  - Decoded values are a `Json.Value` datatype. `Json.Truthy` is Python truthiness.
- `evaluate_lesson` (module `Pipeline`): the guard chain.
  1. A blank explanation is rejected.
  2. Build the query and ask the model once.
  3. A blank reply is rejected.
  4. Extract the JSON span and decode it. An undecodable span counts as `{}`.
  5. Adapt the decoded value.

  The model and `json.loads` are function parameters. `Evaluate` also returns
  the list of queries sent to the model, so "no model call for a blank
  explanation" is a statement about that list.

Two consequences of the regular expression are worth stating:
- The capture runs from the first `{` to the last `}`, whatever lies between
  them. A reply holding two objects is captured as one span, text between the
  objects included (`ExtractJsonSpansTwoObjects`).
- The fallback `"{}"` applies both when there is no `{` and when no `}`
  follows the first `{` (`ExtractJsonFallback`).

## Model

| member | source | states |
|---|---|---|
| Text.TrimStart | app.py:81 | the result is a suffix of the input; everything removed is whitespace; the result does not start with whitespace |
| Text.TrimEnd | app.py:81 | the result is a prefix of the input; everything removed is whitespace; the result does not end with whitespace |
| Text.Strip | app.py:81 | `strip()` is empty exactly when the text is all whitespace; otherwise it starts and ends with a non-space |
| Text.IsSpace | app.py:81 | the characters `str.strip()` removes, Python's `str.isspace` set: the ASCII controls 9-13 and 28-31, space, NEL, no-break space and the Unicode space separators |
| Text.StripIsInfix | app.py:81 | `strip()` returns a contiguous slice of its argument |
| Text.StripKeepsTrimmed | app.py:81 | a text with no whitespace at either end is unchanged by `strip()` |
| Text.StripIdempotent | app.py:81 | stripping twice is stripping once |
| Text.StripIgnoresSurroundingSpace | app.py:81 | whitespace added around a text does not change its `strip()` |
| Text.FirstIndexOf | app.py:83 | the index of the first occurrence of a character, or the length when it is absent |
| Text.LastIndexOf | app.py:83 | the index of the last occurrence of a character, or -1 when it is absent |
| Extract.SearchBraceSpan | app.py:83-84 | the searched span, or the fallback, opens with `{`, closes with `}` and is "{}" or a slice of the searched text |
| Extract.ExtractJson | app.py:79-84 | the result always has length at least 2, opens with `{` and closes with `}` |
| Extract.ExtractJsonShape | app.py:83-84 | the result is either the literal "{}" or a contiguous slice of the reply |
| Extract.IsSearchResult | app.py:83 | the match `re.search` reports for `\{.*\}` under DOTALL: a `{` followed later by a `}`, at the leftmost start and from there the longest |
| Extract.SearchResultIsFirstOpenLastClose | app.py:83 | `re.search`'s leftmost-greedy match of `\{.*\}` is exactly (first `{`, last `}`) whenever that `}` is later, and no other pair |
| Extract.SearchResultExists | app.py:83 | whenever any span matches, the leftmost-greedy match exists and starts at the first `{` and ends at the last `}` |
| Extract.ExtractJsonFallback | app.py:83-84 | no `{` followed by a `}` in the stripped reply gives exactly "{}" |
| Extract.ExtractJsonNoOpenBrace | app.py:84 | a stripped reply without `{` gives "{}" |
| Extract.ExtractJsonGreedySpan | app.py:83-84 | otherwise the result is the stripped reply sliced from the match's start to its end, inner braces and text included |
| Extract.SearchBraceSpanOfBraced | app.py:83-84 | a text that opens with `{` and closes with `}` is its own match |
| Extract.ExtractJsonKeepsBraced | app.py:81-84 | a reply that is already one brace span is returned unchanged |
| Extract.ExtractJsonIdempotent | app.py:81-84 | extracting from an extracted span returns it unchanged |
| Extract.SearchBraceSpanFindsObject | app.py:83 | in a text with no `{` before an object and no `}` after it, the search captures exactly the object |
| Extract.ExtractJsonDropsSurroundingProse | app.py:81-84 | in a reply already free of whitespace at both ends, prose with no `{` before an object and prose with no `}` after it are cut away; `ExtractJsonIgnoresSurroundingSpace` adds back any whitespace around such a reply |
| Extract.ExtractJsonIgnoresSurroundingSpace | app.py:81-84 | whitespace around the reply does not change the extracted text |
| Extract.ExtractJsonFromProse | app.py:83-84 | `blah {"a":1} blah` extracts to `{"a":1}` |
| Extract.ExtractJsonFromPlainText | app.py:84 | `no json here` extracts to "{}" |
| Extract.ExtractJsonSpansTwoObjects | app.py:83 | `{"a":1} and {"b":2}` is captured whole, text between the objects included |
| Json.Truthy | app.py:66-71 | Python truthiness: a decoded value is falsy exactly when it is null, false, 0, "", [] or {} |
| Adapter.KeysAreSchemaKeys | app.py:64-76 | every field's key is one of the eleven schema keys, and distinct fields have distinct keys |
| Adapter.Get | app.py:65 | `dict.get(k, default)`: the key's value when the key is present, whatever it is, else the default |
| Adapter.GetOrAlias | app.py:66 | `get(k) or get(alias, default)`: the own value when present and truthy, else the alias's value when the alias is present, else the default |
| Adapter.Resolve | app.py:64-76 | the per-field rule read off the table of keys, aliases and defaults: a field without an alias takes any present value, a field with one falls through on a missing or falsy value |
| Adapter.Adapt | app.py:62-76 | the adapted mapping has exactly the eleven schema keys, so every other input key is dropped |
| Adapter.AdaptResolvesEachField | app.py:64-76 | each adapted field is given by the per-field resolution rule (own key, then alias, then default) |
| Adapter.AdaptFollowsRule | app.py:64-76 | the resolution rule holds for all eleven fields at once |
| Adapter.AdaptPresenceField | app.py:65-75 | `topic`, `letter_grade` and the list fields copy a present value unchanged, even a falsy one, and otherwise take "Unknown Topic", "N/A" or [] |
| Adapter.AdaptTruthinessField | app.py:66-71 | the scores and `calculation` keep their own value only when it is truthy; otherwise they take the alias value when the alias is present (even a falsy one); otherwise they take 0 or "" |
| Adapter.AdaptDropsAliasKeys | app.py:64-76 | the alias keys never appear in the adapted mapping |
| Adapter.DefaultFeedback | app.py:64-76 | the all-default record has exactly the eleven schema keys |
| Adapter.AdaptEmpty | app.py:64-76 | the empty object adapts to the all-default record, field by field |
| Adapter.AdaptIgnoresOtherKeys | app.py:64-76 | changing any key other than the eleven schema keys and five aliases leaves the result unchanged |
| Adapter.AdaptFalsyLikeMissing | app.py:66-71 | for a field with an alias, an explicit falsy value adapts exactly as if the key were missing |
| Adapter.AdaptZeroScoreTakesAlias | app.py:66 | `{"numerical_grade": 0, "overall_score": 77}` and `{"overall_score": 77}` both adapt to grade 77 |
| Adapter.AdaptPhotosynthesis | app.py:65-72 | `{"topic": "Photosynthesis", "numerical_grade": 85}` keeps both values, and its `strengths` default to [] |
| Pipeline.BuildQuery | app.py:96 | the query is the fixed head, the topic, the fixed middle, the explanation and the fixed tail, each at its computed offset |
| Pipeline.QueryTopicEndsAtFirstLineBreak | app.py:96 | for a topic without line breaks, the first line break after the head ends the topic |
| Pipeline.BuildQueryInjective | app.py:96 | distinct (topic, explanation) pairs with line-break-free topics give distinct queries |
| Pipeline.Interpret | app.py:105-114 | a graded outcome of extract, decode and adapt has exactly the schema keys |
| Pipeline.Evaluate | app.py:92-117 | the model is asked once, with the built query, exactly when the explanation is not blank; a blank explanation is rejected with "Explanation cannot be empty."; graded feedback has exactly the schema keys |
| Pipeline.EvaluateBlankExplanation | app.py:93-94 | a blank explanation sends no query, is rejected, and the outcome does not depend on the model |
| Pipeline.EvaluateAsksOnce | app.py:96-97 | a non-blank explanation sends exactly one query, which contains the explanation |
| Pipeline.EvaluateInterpretsReply | app.py:100-114 | past both blank checks, the outcome is the reply run through extract, decode and adapt |
| Pipeline.EvaluateBlankReply | app.py:101-102 | an empty or all-whitespace reply is rejected with "Empty response from LLM." |
| Pipeline.EvaluateAdaptsDecodedObject | app.py:108-114 | a decoded object is adapted to the schema |
| Pipeline.EvaluateUndecodableReply | app.py:108-114 | an undecodable span is not an error: it yields the all-default feedback |
| Pipeline.DecodesBracedToObjects | app.py:108-109 | what is assumed of `json.loads`: a text opening with `{` decodes, if at all, to an object |
| Pipeline.EvaluateAlwaysGrades | app.py:105-114 | with a decoder that turns `{`-texts only into objects, a non-blank explanation and reply always give feedback with exactly the schema keys |
| Pipeline.EvaluateSameReplyMeaning | app.py:100-114 | the outcome depends on the reply only through its strip and its extract-decode-adapt result |
| Pipeline.InterpretIgnoresPadding | app.py:100-114 | whitespace around a reply changes neither its strip nor what it is interpreted as |
| Pipeline.EvaluateIgnoresReplyPadding | app.py:100-105 | whitespace around the model's reply does not change the outcome |
| Pipeline.FencedReplyExtracts | app.py:105 | a reply of prose plus a fenced object extracts to the object |
| Pipeline.EvaluateFencedReply | app.py:92-117 | end to end, a fenced reply for a Photosynthesis lesson yields topic "Photosynthesis", grade 85 and default lists |

## Left out

- `teach_eval.py` (the console front end) is not part of this model. It holds the input loop with its `DONE` sentinel, the printing, its own model call and LangChain's output parser.
- The model call is a function parameter. This leaves out `ChatGoogleGenerativeAI`, `prompt.format_messages`, the system prompt text and `getattr(raw_response, "content", ...)`. The model is taken to return text, and network failures and exceptions are not modelled.
- The rubric in the prompt (weights 0.8/0.15/0.05, at most five mechanics issues, at least three suggestions) is an instruction to the model. The code never computes or checks it, so it is not a property here.
- `json.loads` is a parameter returning `None` where it raises `JSONDecodeError`. Other exceptions are not modelled, and neither are floats or Python's `bool`-is-`int`. A decoded non-object would make `raw_dict.get` raise. That case is the outcome `NotAMapping`, and `EvaluateAlwaysGrades` shows it cannot occur for a decoder that behaves like `json.loads`.
- `LessonFeedback(**adapted_dict)` (pydantic type coercion and its validation error) is not modelled. The pipeline's result is the adapted mapping.
- The FastAPI routes, the `Form` fields, the Jinja2 templates, `read_form`, `load_dotenv` and `uvicorn.run` are web plumbing, so they are left out. The rendered page is represented by the `Outcome` value.
- Python dictionaries keep insertion order, and Dafny maps do not. The order of the adapted keys is not modelled.
- `adapt_feedback` does not modify its argument. In a value model this holds by construction and is not stated separately.
- Running the pipeline twice with the same model reply gives the same result. This holds because `Evaluate` is a function and is not stated as a lemma.
