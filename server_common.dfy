/**
 * What the two Flask resources share: HTTP responses, the prompt context cut
 * from the first text chunks, and the MongoDB update that records an
 * answered question (`update_one` with `$push` on `questions` and `$set` on
 * `last_activity`). A collection is a sequence of documents in insertion
 * order; timestamps are `datetime.utcnow()` given as a number.
 */
module ServerCommon {
  import opened Wrappers
  import opened Text
  import Json

  /** A document of a MongoDB collection. */
  type Doc = map<string, Json.Value>

  /** A JSON body, or the framework's own error page for an uncaught exception. */
  datatype Body = JsonBody(value: Json.Value) | ServerErrorPage

  datatype Response = Response(status: int, body: Body)

  /** `{"error": message}, status`. */
  function ErrorResponse(status: int, message: Json.Value): Response
  {
    Response(status, JsonBody(Json.Object(map["error" := message])))
  }

  /** A top-level field of a JSON response body; null for the error page. */
  function BodyField(resp: Response, key: string): Json.Value
  {
    if resp.body.JsonBody? then Json.Member(resp.body.value, key) else Json.Null
  }

  /**
   * What answering a question produced: the vector store search or the QA
   * chain raised (with the exception's text), or the search found
   * `docCount` passages and the chain's reply holds `output_text` or not.
   */
  datatype Retrieval = Raised(message: string) | Retrieved(docCount: nat, outputText: Option<string>)

  /** Which prompt a metadata request carries; the model's reply depends only on it and the context. */
  datatype MetadataKind = NameOf | DescriptionOf | KeywordsOf

  /**
   * `ask(prompt)` / `_generate_metadata(context, prompt)`: the chain's
   * reply with the whitespace at its two ends stripped and nothing else
   * changed.
   */
  function Metadata(llm: (MetadataKind, string) -> string, kind: MetadataKind, context: string): (r: string)
    ensures Trimmed(Python, r)
    ensures exists i: nat, j: nat :: Middle(Python, llm(kind, context), i, j, r)
  {
    TrimIsMiddle(Python, llm(kind, context));
    Trim(Python, llm(kind, context))
  }

  /** What Flask answers when a handler raises. */
  const InternalServerError := Response(500, ServerErrorPage)

  // ---- context for the metadata prompts ----

  const ContextLimit := 3000

  /** `text_chunks[:3]`. */
  function Leading(chunks: seq<string>): (r: seq<string>)
    ensures |r| <= 3 && |r| <= |chunks| && r == chunks[..|r|]
    ensures |chunks| >= 3 ==> |r| == 3
    ensures |chunks| < 3 ==> r == chunks
  {
    if |chunks| <= 3 then chunks else chunks[..3]
  }

  /**
   * `" ".join(text_chunks[:3])[:3000]`: never longer than 3000 characters,
   * always a prefix of the joined chunks, the whole join when that fits,
   * and exactly 3000 characters when it does not.
   */
  function Context(chunks: seq<string>): (r: string)
    ensures |r| <= ContextLimit
    ensures |r| <= |Join(Leading(chunks), " ")| && r == Join(Leading(chunks), " ")[..|r|]
    ensures |Join(Leading(chunks), " ")| <= ContextLimit ==> r == Join(Leading(chunks), " ")
    ensures |Join(Leading(chunks), " ")| > ContextLimit ==> |r| == ContextLimit
  {
    var joined := Join(Leading(chunks), " ");
    if |joined| <= ContextLimit then joined else joined[..ContextLimit]
  }

  /** Nothing is cut when the first three chunks and their two separating spaces fit in the limit. */
  lemma ContextKeepsShortChunks(chunks: seq<string>)
    requires TotalLength(Leading(chunks)) + 2 <= ContextLimit
    ensures Context(chunks) == Join(Leading(chunks), " ")
  {
    var lead := Leading(chunks);
    if |lead| >= 1 {
      JoinLength(lead, " ");
    }
  }

  // ---- the question log kept in each record ----

  /** The `questions` array of a record; a missing one reads as empty, as `$push` treats it. */
  function Questions(doc: Doc): seq<Json.Value>
  {
    if "questions" in doc && doc["questions"].Array? then doc["questions"].items else []
  }

  /** Every record carries a `questions` array, as every record the services insert does. */
  ghost predicate WellFormed(docs: seq<Doc>)
  {
    forall i :: 0 <= i < |docs| ==> "questions" in docs[i] && docs[i]["questions"].Array?
  }

  /** Inserting a record with a `questions` array keeps the collection well formed. */
  lemma AppendKeepsWellFormed(docs: seq<Doc>, d: Doc)
    requires WellFormed(docs) && "questions" in d && d["questions"].Array?
    ensures WellFormed(docs + [d])
  {
    assert forall i :: 0 <= i < |docs| ==> (docs + [d])[i] == docs[i];
  }

  /** `{"question": ..., "answer": ..., "timestamp": ...}`. */
  function QuestionRecord(question: Json.Value, answer: string, now: int): (r: Json.Value)
    ensures r.Object? && r.fields.Keys == {"question", "answer", "timestamp"}
    ensures Json.Member(r, "question") == question && Json.Member(r, "answer") == Json.Str(answer)
    ensures Json.Member(r, "timestamp") == Json.Number(now)
  {
    Json.Object(map["question" := question, "answer" := Json.Str(answer), "timestamp" := Json.Number(now)])
  }

  /**
   * The index of the document `update_one({field: key}, ...)` changes: the
   * first whose field equals the key (a missing field reads as null), or
   * none.
   */
  function FirstMatch(docs: seq<Doc>, field: string, key: Json.Value): (r: Option<nat>)
    ensures r.Some? ==> r.value < |docs| && Json.Get(docs[r.value], field) == key
    ensures r.Some? ==> forall j :: 0 <= j < r.value ==> Json.Get(docs[j], field) != key
    ensures r.None? ==> forall j :: 0 <= j < |docs| ==> Json.Get(docs[j], field) != key
  {
    if docs == [] then None
    else if Json.Get(docs[0], field) == key then Some(0)
    else
      var rest := FirstMatch(docs[1..], field, key);
      if rest.None? then None
      else
        assert forall j :: 1 <= j < rest.value + 1 ==> docs[j] == docs[1..][j - 1];
        Some(rest.value + 1)
  }

  /** `$push: {"questions": record}, $set: {"last_activity": now}` on one document. */
  function Push(doc: Doc, record: Json.Value, now: int): (r: Doc)
    ensures r.Keys == doc.Keys + {"questions", "last_activity"}
    ensures Questions(r) == Questions(doc) + [record]
    ensures r["last_activity"] == Json.Number(now)
    ensures forall k :: k in doc && k != "questions" && k != "last_activity" ==> r[k] == doc[k]
  {
    doc["questions" := Json.Array(Questions(doc) + [record])]["last_activity" := Json.Number(now)]
  }

  /**
   * The collection after the question update: only the first matching
   * record changes, and it gains the question record as its last question
   * and the new last activity; with no match nothing changes. Records keep
   * their order.
   */
  function Pushed(docs: seq<Doc>, field: string, key: Json.Value, record: Json.Value, now: int): (r: seq<Doc>)
    ensures |r| == |docs|
    ensures FirstMatch(docs, field, key).None? ==> r == docs
    ensures forall j :: 0 <= j < |docs| && FirstMatch(docs, field, key) != Some(j) ==> r[j] == docs[j]
    ensures FirstMatch(docs, field, key).Some? ==>
      var i := FirstMatch(docs, field, key).value;
      Questions(r[i]) == Questions(docs[i]) + [record]
      && "last_activity" in r[i] && r[i]["last_activity"] == Json.Number(now)
      && forall k :: k in docs[i] && k != "questions" && k != "last_activity" ==> k in r[i] && r[i][k] == docs[i][k]
    ensures WellFormed(docs) ==> WellFormed(r)
  {
    var m := FirstMatch(docs, field, key);
    if m.None? then docs else docs[m.value := Push(docs[m.value], record, now)]
  }

  /** Questions recorded in the whole collection. */
  function QuestionCount(docs: seq<Doc>): nat
  {
    if docs == [] then 0 else |Questions(docs[0])| + QuestionCount(docs[1..])
  }

  /** Inserting a record adds its questions to the count; a fresh record has none. */
  lemma {:induction false} QuestionCountAppend(docs: seq<Doc>, d: Doc)
    ensures QuestionCount(docs + [d]) == QuestionCount(docs) + |Questions(d)|
    decreases |docs|
  {
    if docs == [] {
      assert (docs + [d])[1..] == [];
    } else {
      assert (docs + [d])[1..] == docs[1..] + [d];
      QuestionCountAppend(docs[1..], d);
    }
  }

  lemma {:induction false} QuestionCountUpdate(docs: seq<Doc>, i: nat, d: Doc)
    requires i < |docs|
    ensures QuestionCount(docs[i := d]) + |Questions(docs[i])| == QuestionCount(docs) + |Questions(d)|
    decreases |docs|
  {
    if i > 0 {
      assert docs[i := d][1..] == docs[1..][i - 1 := d];
      QuestionCountUpdate(docs[1..], i - 1, d);
    } else {
      assert docs[i := d][1..] == docs[1..];
    }
  }

  /**
   * One answered question adds exactly one question record to the
   * collection when a record has the key, and none when no record has it.
   */
  lemma QuestionRecordedOnce(docs: seq<Doc>, field: string, key: Json.Value, record: Json.Value, now: int)
    ensures QuestionCount(Pushed(docs, field, key, record, now))
      == QuestionCount(docs) + (if FirstMatch(docs, field, key).Some? then 1 else 0)
  {
    var m := FirstMatch(docs, field, key);
    if m.Some? {
      QuestionCountUpdate(docs, m.value, Push(docs[m.value], record, now));
    }
  }
}
