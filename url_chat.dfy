/**
 * The URL chat resource (`URLChatService`): a POST whose JSON body has a
 * `url` processes that web page and creates its record; one with both
 * `url_id` and `question` answers a question about a processed page and
 * records the answer; anything else is refused. The URL processor, the
 * second fetch of the page (as its text chunks, or None when the fetch
 * failed), the language model, the vector store search and the clock are
 * parameters; the `url_chats` collection is a field.
 */
module UrlChat {
  import opened Wrappers
  import opened Text
  import Json
  import opened ServerCommon

  /** Which handler `post` calls. */
  datatype Route = ProcessUrl | AnswerQuestion | InvalidRequest

  /**
   * `post`'s dispatch: a `url` key wins even when `url_id` and `question`
   * are present too; otherwise both of those are needed; anything else is
   * an invalid request.
   */
  function RouteOf(data: map<string, Json.Value>): (r: Route)
    ensures r == ProcessUrl <==> "url" in data
    ensures r == AnswerQuestion <==> "url" !in data && "url_id" in data && "question" in data
    ensures r == InvalidRequest <==> "url" !in data && ("url_id" !in data || "question" !in data)
  {
    if "url" in data then ProcessUrl
    else if "url_id" in data && "question" in data then AnswerQuestion
    else InvalidRequest
  }

  /** What `process_url(url)` returned: the new id and an error (either may be null). */
  datatype UrlProcessing = UrlProcessing(urlId: Json.Value, error: Json.Value)

  /**
   * The record a processed URL inserts: processed, no questions yet, and a
   * last activity equal to its creation time, with the given metadata.
   */
  function UrlRecord(urlId: Json.Value, url: Json.Value, name: string, description: string, now: int): (r: Doc)
    ensures r.Keys == {"url_id", "url", "created_at", "last_activity", "status", "name", "description", "questions"}
    ensures r["url_id"] == urlId && r["url"] == url && r["status"] == Json.Str("processed")
    ensures r["questions"] == Json.Array([]) && Questions(r) == []
    ensures r["last_activity"] == r["created_at"] == Json.Number(now)
  {
    map["url_id" := urlId,
        "url" := url,
        "created_at" := Json.Number(now),
        "last_activity" := Json.Number(now),
        "status" := Json.Str("processed"),
        "name" := Json.Str(name),
        "description" := Json.Str(description),
        "questions" := Json.Array([])]
  }

  /** `{"answer": answer}, 200`. */
  function AnswerResponse(answer: string): Response
  {
    Response(200, JsonBody(Json.Object(map["answer" := Json.Str(answer)])))
  }

  const NoContent := "No relevant content found"
  const NoResponse := "No response"

  /**
   * What _handle_url_processing does, from the collection `before` to
   * `after` with the reply `resp`. A truthy error from the processor: 400
   * with that error and no record. When the page's second fetch fails, its
   * text is None and splitting it raises: a 500 and no record. Otherwise
   * one record is inserted after the existing ones, and the response's
   * `url_id` and `url` are the record's. No question is recorded.
   */
  ghost predicate ProcessOutcome(before: seq<Doc>, data: map<string, Json.Value>, processed: UrlProcessing,
                                 refetched: Option<seq<string>>, llm: (MetadataKind, string) -> string, now: int,
                                 resp: Response, after: seq<Doc>)
  {
    && (Json.PyTruthy(processed.error) ==> resp == ErrorResponse(400, processed.error) && after == before)
    && (!Json.PyTruthy(processed.error) && refetched.None? ==> resp == InternalServerError && after == before)
    && (!Json.PyTruthy(processed.error) && refetched.Some? ==>
          var context := Context(refetched.value);
          resp.status == 200
          && after == before + [UrlRecord(processed.urlId, Json.Get(data, "url"), Metadata(llm, NameOf, context),
                                          Metadata(llm, DescriptionOf, context), now)]
          && BodyField(resp, "url_id") == after[|after| - 1]["url_id"]
          && Json.Member(BodyField(resp, "url_info"), "url") == after[|after| - 1]["url"])
    && QuestionCount(after) == QuestionCount(before)
  }

  /**
   * What _handle_question does. Every failure is caught and answered 500
   * with the exception's text, recording nothing: a missing key (Python
   * prints a KeyError as the quoted key) or a failed search or chain. When
   * the search finds nothing the reply is an error with status 200 and
   * nothing is recorded. Otherwise the answer (or "No response" when the
   * chain gave no `output_text`) is returned and recorded once, in the
   * first record with that id.
   */
  ghost predicate QuestionOutcome(before: seq<Doc>, data: map<string, Json.Value>, retrieval: Retrieval, now: int,
                                  resp: Response, after: seq<Doc>)
  {
    && ("url_id" !in data ==> resp == ErrorResponse(500, Json.Str("'url_id'")) && after == before)
    && ("url_id" in data && "question" !in data ==>
          resp == ErrorResponse(500, Json.Str("'question'")) && after == before)
    && ("url_id" in data && "question" in data && retrieval.Raised? ==>
          resp == ErrorResponse(500, Json.Str(retrieval.message)) && after == before)
    && ("url_id" in data && "question" in data && retrieval.Retrieved? && retrieval.docCount == 0 ==>
          resp == ErrorResponse(200, Json.Str(NoContent)) && after == before)
    && ("url_id" in data && "question" in data && retrieval.Retrieved? && retrieval.docCount > 0 ==>
          var answer := retrieval.outputText.GetOr(NoResponse);
          resp == AnswerResponse(answer)
          && after == Pushed(before, "url_id", data["url_id"], QuestionRecord(data["question"], answer, now), now)
          && QuestionCount(after)
             == QuestionCount(before) + (if FirstMatch(before, "url_id", data["url_id"]).Some? then 1 else 0))
    && (resp.status != 200 || BodyField(resp, "answer") == Json.Null ==> after == before)
  }

  class UrlChatService {
    /** The MongoDB `url_chats` collection. */
    var urls: seq<Doc>

    ghost predicate Valid()
      reads this
    {
      WellFormed(urls)
    }

    constructor ()
      ensures urls == [] && Valid()
    {
      urls := [];
    }

    /** _handle_url_processing, as ProcessOutcome states it. */
    method HandleUrlProcessing(data: map<string, Json.Value>, processed: UrlProcessing, refetched: Option<seq<string>>,
                               llm: (MetadataKind, string) -> string, now: int) returns (resp: Response)
      requires Valid()
      modifies this
      ensures Valid()
      ensures ProcessOutcome(old(urls), data, processed, refetched, llm, now, resp, urls)
    {
      var url := Json.Get(data, "url");
      if Json.PyTruthy(processed.error) {
        return ErrorResponse(400, processed.error);
      }
      if refetched.None? {
        return InternalServerError;
      }
      var context := Context(refetched.value);
      var name := Metadata(llm, NameOf, context);
      var description := Metadata(llm, DescriptionOf, context);
      var chatRecord := UrlRecord(processed.urlId, url, name, description, now);
      QuestionCountAppend(urls, chatRecord);
      AppendKeepsWellFormed(urls, chatRecord);
      urls := urls + [chatRecord];
      var urlInfo := map["url" := url, "title" := Json.Str(name), "description" := Json.Str(description)];
      resp := Response(200, JsonBody(Json.Object(map["message" := Json.Str("URL processed successfully"),
                                                     "url_id" := processed.urlId,
                                                     "url_info" := Json.Object(urlInfo)])));
    }

    /** _handle_question, as QuestionOutcome states it. */
    method HandleQuestion(data: map<string, Json.Value>, retrieval: Retrieval, now: int) returns (resp: Response)
      requires Valid()
      modifies this
      ensures Valid()
      ensures QuestionOutcome(old(urls), data, retrieval, now, resp, urls)
    {
      if "url_id" !in data {
        return ErrorResponse(500, Json.Str("'url_id'"));
      }
      var urlId := data["url_id"];
      if "question" !in data {
        return ErrorResponse(500, Json.Str("'question'"));
      }
      var userQuestion := data["question"];
      if retrieval.Raised? {
        return ErrorResponse(500, Json.Str(retrieval.message));
      }
      if retrieval.docCount == 0 {
        return ErrorResponse(200, Json.Str(NoContent));
      }
      var answer := retrieval.outputText.GetOr(NoResponse);
      var questionRecord := QuestionRecord(userQuestion, answer, now);
      QuestionRecordedOnce(urls, "url_id", urlId, questionRecord, now);
      urls := Pushed(urls, "url_id", urlId, questionRecord, now);
      resp := AnswerResponse(answer);
    }

    /**
     * post: each request gets exactly what the handler it is routed to
     * gives it; an invalid request is refused with 400 and changes nothing.
     * URL processing never records a question and inserts at most one
     * record; a question never inserts a record.
     */
    method Post(data: map<string, Json.Value>, processed: UrlProcessing, refetched: Option<seq<string>>,
                llm: (MetadataKind, string) -> string, retrieval: Retrieval, now: int) returns (resp: Response)
      requires Valid()
      modifies this
      ensures Valid()
      ensures RouteOf(data) == InvalidRequest ==>
        resp == ErrorResponse(400, Json.Str("Invalid request parameters")) && urls == old(urls)
      ensures RouteOf(data) == ProcessUrl ==> ProcessOutcome(old(urls), data, processed, refetched, llm, now, resp, urls)
      ensures RouteOf(data) == AnswerQuestion ==> QuestionOutcome(old(urls), data, retrieval, now, resp, urls)
      ensures RouteOf(data) == ProcessUrl ==>
        QuestionCount(urls) == QuestionCount(old(urls)) && |old(urls)| <= |urls| <= |old(urls)| + 1
        && urls[..|old(urls)|] == old(urls)
      ensures RouteOf(data) == AnswerQuestion ==> |urls| == |old(urls)|
    {
      match RouteOf(data)
      case ProcessUrl =>
        resp := HandleUrlProcessing(data, processed, refetched, llm, now);
      case AnswerQuestion =>
        resp := HandleQuestion(data, retrieval, now);
      case InvalidRequest =>
        resp := ErrorResponse(400, Json.Str("Invalid request parameters"));
    }
  }
}
