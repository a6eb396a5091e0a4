/**
 * The PDF chat resource (`PDFChatService`): a POST carrying a `pdf` file
 * part uploads a document and creates its chat record; any other POST asks
 * a question about an uploaded document and records the answer. The new
 * id, the text chunks, the language model, the vector store search and the
 * clock are parameters; the `chats` collection is a field.
 */
module PdfChat {
  import opened Wrappers
  import opened Text
  import Json
  import opened ServerCommon

  // ---- keyword parsing ----

  /** `k.strip()` in the server's Python. */
  function Strip(k: string): string
  {
    Trim(Python, k)
  }

  /** `[strip(k) for k in pieces if strip(k)]`: the non-empty stripped pieces, in order. */
  function Clean(pieces: seq<string>, strip: string -> string): (r: seq<string>)
    ensures |r| <= |pieces|
    ensures forall i :: 0 <= i < |r| ==> r[i] != ""
  {
    if pieces == [] then []
    else (if strip(pieces[0]) != "" then [strip(pieces[0])] else []) + Clean(pieces[1..], strip)
  }

  /** The kept keywords are exactly the non-empty stripped forms of the pieces. */
  lemma {:induction false} CleanMembers(pieces: seq<string>, strip: string -> string)
    ensures forall k :: k in Clean(pieces, strip) <==> k != "" && exists p :: p in pieces && strip(p) == k
    decreases |pieces|
  {
    if pieces != [] {
      CleanMembers(pieces[1..], strip);
      assert pieces == [pieces[0]] + pieces[1..];
      forall k | k != "" && (exists p :: p in pieces && strip(p) == k)
        ensures k in Clean(pieces, strip)
      {
        var p :| p in pieces && strip(p) == k;
        if p != pieces[0] {
          assert p in pieces[1..];
        }
      }
    }
  }

  /** The `keywords` of a record: the model's reply split on commas, each piece stripped, empty ones dropped. */
  function ParseKeywords(text: string): (r: seq<string>)
    ensures forall i :: 0 <= i < |r| ==> r[i] != "" && Trimmed(Python, r[i]) && ',' !in r[i]
  {
    var pieces := Split(text, ',');
    var r := Clean(pieces, Strip);
    CleanMembers(pieces, Strip);
    forall p | p in pieces
      ensures ',' !in Strip(p)
    {
      TrimKeepsAbsent(Python, p, ',');
    }
    assert forall i :: 0 <= i < |r| ==> r[i] in r;
    r
  }

  lemma {:induction false} CleanConcat(a: seq<string>, b: seq<string>, strip: string -> string)
    ensures Clean(a + b, strip) == Clean(a, strip) + Clean(b, strip)
    decreases |a|
  {
    if a == [] {
      assert a + b == b;
    } else {
      assert (a + b)[0] == a[0] && (a + b)[1..] == a[1..] + b;
      CleanConcat(a[1..], b, strip);
    }
  }

  /** Keywords keep the order of the reply: what precedes a comma comes first. */
  lemma KeywordsSplitAtComma(a: string, b: string)
    ensures ParseKeywords(a + "," + b) == ParseKeywords(a) + ParseKeywords(b)
  {
    assert a + "," + b == a + [','] + b;
    SplitAtSeparator(a, b, ',');
    CleanConcat(Split(a, ','), Split(b, ','), Strip);
  }

  /** A space after a comma changes nothing. */
  lemma KeywordsIgnoreLeadingSpace(x: string)
    ensures ParseKeywords(" " + x) == ParseKeywords(x)
  {
    SplitCons(' ', x, ',');
    var pieces := Split(x, ',');
    TrimSkipsLeadingSpace(Python, " ", pieces[0]);
    assert " " + x == [' '] + x;
    CleanConcat([" " + pieces[0]], pieces[1..], Strip);
    CleanConcat([pieces[0]], pieces[1..], Strip);
    assert pieces == [pieces[0]] + pieces[1..];
  }

  /** A single keyword with nothing to strip parses as itself. */
  lemma KeywordAlone(k: string)
    requires k != "" && Trimmed(Python, k) && ',' !in k
    ensures ParseKeywords(k) == [k]
  {
    SplitWithoutSeparator(k, ',');
    TrimOfTrimmed(Python, k);
  }

  /** An empty reply has no keywords. */
  lemma NoKeywords()
    ensures ParseKeywords("") == []
  {
    assert Trim(Python, "") == "";
  }

  /** A keyword followed by ", " reads as that keyword, then whatever follows. */
  lemma KeywordThenRest(k: string, rest: string)
    requires k != "" && Trimmed(Python, k) && ',' !in k
    ensures ParseKeywords(k + ", " + rest) == [k] + ParseKeywords(rest)
  {
    assert k + ", " + rest == k + "," + (" " + rest);
    KeywordsSplitAtComma(k, " " + rest);
    KeywordAlone(k);
    KeywordsIgnoreLeadingSpace(rest);
  }

  /** Keywords whose comma-joined form reads back as themselves. */
  predicate IsKeyword(k: string)
  {
    k != "" && Trimmed(Python, k) && ',' !in k
  }

  lemma KeywordsRoundTripCons(ks: seq<string>)
    requires |ks| >= 2 && IsKeyword(ks[0])
    requires ParseKeywords(Join(ks[1..], ", ")) == ks[1..]
    ensures ParseKeywords(Join(ks, ", ")) == ks
  {
    assert Join(ks, ", ") == ks[0] + ", " + Join(ks[1..], ", ");
    KeywordThenRest(ks[0], Join(ks[1..], ", "));
    assert ks == [ks[0]] + ks[1..];
  }

  /**
   * Keywords written as "k1, k2, k3" read back as exactly those keywords,
   * in order, whenever each is non-empty, has no surrounding whitespace and
   * no comma: the parser loses and invents nothing.
   */
  lemma {:induction false} KeywordsRoundTrip(ks: seq<string>)
    requires forall i :: 0 <= i < |ks| ==> IsKeyword(ks[i])
    ensures ParseKeywords(Join(ks, ", ")) == ks
    decreases |ks|
  {
    if ks == [] {
      NoKeywords();
    } else if |ks| == 1 {
      KeywordAlone(ks[0]);
    } else {
      KeywordsRoundTrip(ks[1..]);
      KeywordsRoundTripCons(ks);
    }
  }

  /** A list of strings as a JSON array. */
  function Strings(ks: seq<string>): (r: Json.Value)
    ensures r.Array? && |r.items| == |ks|
    ensures forall i :: 0 <= i < |ks| ==> r.items[i] == Json.Str(ks[i])
  {
    Json.Array(seq(|ks|, i requires 0 <= i < |ks| => Json.Str(ks[i])))
  }

  // ---- uploads ----

  /** The uploaded file part: its client-side name and the byte count read from its stream. */
  datatype UploadedFile = UploadedFile(filename: string, bytesRead: nat)

  /**
   * The record an upload inserts: processed, no questions yet and no last
   * activity (so the listing shows it as "Unknown time"), with the given
   * metadata.
   */
  function ChatRecord(pdfId: string, file: UploadedFile, name: string, description: string,
                      keywords: seq<string>, now: int): (r: Doc)
    ensures r.Keys == {"chat_id", "file_name", "file_size", "upload_date", "status",
                       "name", "description", "keywords", "questions"}
    ensures r["chat_id"] == Json.Str(pdfId) && r["status"] == Json.Str("processed")
    ensures r["questions"] == Json.Array([]) && Questions(r) == []
    ensures r["keywords"] == Strings(keywords)
    ensures "last_activity" !in r
  {
    map["chat_id" := Json.Str(pdfId),
        "file_name" := Json.Str(file.filename),
        "file_size" := Json.Number(file.bytesRead),
        "upload_date" := Json.Number(now),
        "status" := Json.Str("processed"),
        "name" := Json.Str(name),
        "description" := Json.Str(description),
        "keywords" := Strings(keywords),
        "questions" := Json.Array([])]
  }

  /** The 200 reply to an upload: the new id and the file's details, size and keywords taken from the record. */
  function UploadResponse(pdfId: string, file: UploadedFile, record: Doc, name: string, description: string): (resp: Response)
    requires "file_size" in record && "keywords" in record
    ensures resp.status == 200
    ensures BodyField(resp, "chat_id") == Json.Str(pdfId)
    ensures Json.Member(BodyField(resp, "file_info"), "keywords") == record["keywords"]
  {
    var fileInfo := map["name" := Json.Str(file.filename),
                        "size" := record["file_size"],
                        "title" := Json.Str(name),
                        "description" := Json.Str(description),
                        "keywords" := record["keywords"]];
    Response(200, JsonBody(Json.Object(map["message" := Json.Str("PDF processed successfully"),
                                           "chat_id" := Json.Str(pdfId),
                                           "file_info" := Json.Object(fileInfo)])))
  }

  /** The request: its file parts and its JSON body (an object). */
  datatype Request = Request(files: map<string, UploadedFile>, json: map<string, Json.Value>)

  /** `not chat_id or not user_question` fails: both are present and truthy in Python's sense. */
  predicate Asked(data: map<string, Json.Value>)
    ensures Asked(data) ==> "chat_id" in data && "question" in data
    ensures Asked(data) ==> data["chat_id"] != Json.Null && data["chat_id"] != Json.Str("")
                            && data["question"] != Json.Null && data["question"] != Json.Str("")
  {
    Json.PyTruthy(Json.Get(data, "chat_id")) && Json.PyTruthy(Json.Get(data, "question"))
  }

  /**
   * What upload_pdf does, from the collection `before` to `after` with the
   * reply `resp`. Without a `pdf` part: 400 and no record. Otherwise one
   * record is inserted after the existing ones, and the response's
   * `chat_id` and keywords are the record's. No question is recorded.
   */
  ghost predicate UploadOutcome(before: seq<Doc>, files: map<string, UploadedFile>, newId: string, chunks: seq<string>,
                                llm: (MetadataKind, string) -> string, now: int, resp: Response, after: seq<Doc>)
  {
    && ("pdf" !in files ==> resp == ErrorResponse(400, Json.Str("No file uploaded")) && after == before)
    && ("pdf" in files ==>
          var context := Context(chunks);
          resp.status == 200
          && after == before + [ChatRecord(newId, files["pdf"], Metadata(llm, NameOf, context),
                                           Metadata(llm, DescriptionOf, context),
                                           ParseKeywords(Metadata(llm, KeywordsOf, context)), now)]
          && BodyField(resp, "chat_id") == after[|after| - 1]["chat_id"]
          && Json.Member(BodyField(resp, "file_info"), "keywords") == after[|after| - 1]["keywords"])
    && QuestionCount(after) == QuestionCount(before)
  }

  /**
   * What ask_question does. A missing or falsy chat id or question: 400
   * and no update. A failed search or chain, or a reply without
   * `output_text`: the handler raises and nothing is recorded. Otherwise
   * the answer is returned and recorded once, in the first record with
   * that chat id; the recorded answer is the returned one.
   */
  ghost predicate AskOutcome(before: seq<Doc>, data: map<string, Json.Value>, retrieval: Retrieval, now: int,
                             resp: Response, after: seq<Doc>)
  {
    && (!Asked(data) ==> resp == ErrorResponse(400, Json.Str("Missing chat_id or question")) && after == before)
    && (Asked(data) && (retrieval.Raised? || retrieval.outputText.None?) ==>
          resp == InternalServerError && after == before)
    && (Asked(data) && retrieval.Retrieved? && retrieval.outputText.Some? ==>
          var chatId := Json.Get(data, "chat_id");
          var answer := retrieval.outputText.value;
          resp == Response(200, JsonBody(Json.Object(map["answer" := Json.Str(answer)])))
          && after == Pushed(before, "chat_id", chatId, QuestionRecord(Json.Get(data, "question"), answer, now), now)
          && QuestionCount(after) == QuestionCount(before) + (if FirstMatch(before, "chat_id", chatId).Some? then 1 else 0))
    && (Asked(data) && resp.status == 200 && FirstMatch(before, "chat_id", Json.Get(data, "chat_id")).Some? ==>
          var i := FirstMatch(before, "chat_id", Json.Get(data, "chat_id")).value;
          i < |after| && |Questions(after[i])| > 0
          && Json.Member(Questions(after[i])[|Questions(after[i])| - 1], "answer") == BodyField(resp, "answer"))
  }

  class PdfChatService {
    /** The MongoDB `chats` collection. */
    var chats: seq<Doc>

    ghost predicate Valid()
      reads this
    {
      WellFormed(chats)
    }

    constructor ()
      ensures chats == [] && Valid()
    {
      chats := [];
    }

    /** upload_pdf, as UploadOutcome states it. */
    method UploadPdf(files: map<string, UploadedFile>, newId: string, chunks: seq<string>,
                     llm: (MetadataKind, string) -> string, now: int) returns (resp: Response)
      requires Valid()
      modifies this
      ensures Valid()
      ensures UploadOutcome(old(chats), files, newId, chunks, llm, now, resp, chats)
    {
      if "pdf" !in files {
        return ErrorResponse(400, Json.Str("No file uploaded"));
      }
      var pdfFile := files["pdf"];
      var context := Context(chunks);
      var name := Metadata(llm, NameOf, context);
      var description := Metadata(llm, DescriptionOf, context);
      var keywords := Metadata(llm, KeywordsOf, context);
      var chatRecord := ChatRecord(newId, pdfFile, name, description, ParseKeywords(keywords), now);
      QuestionCountAppend(chats, chatRecord);
      AppendKeepsWellFormed(chats, chatRecord);
      chats := chats + [chatRecord];
      resp := UploadResponse(newId, pdfFile, chatRecord, name, description);
    }

    /** ask_question, as AskOutcome states it. */
    method AskQuestion(data: map<string, Json.Value>, retrieval: Retrieval, now: int) returns (resp: Response)
      requires Valid()
      modifies this
      ensures Valid()
      ensures AskOutcome(old(chats), data, retrieval, now, resp, chats)
    {
      var chatId := Json.Get(data, "chat_id");
      var userQuestion := Json.Get(data, "question");
      if !Json.PyTruthy(chatId) || !Json.PyTruthy(userQuestion) {
        return ErrorResponse(400, Json.Str("Missing chat_id or question"));
      }
      if retrieval.Raised? || retrieval.outputText.None? {
        return InternalServerError;
      }
      var answer := retrieval.outputText.value;
      var questionRecord := QuestionRecord(userQuestion, answer, now);
      QuestionRecordedOnce(chats, "chat_id", chatId, questionRecord, now);
      chats := Pushed(chats, "chat_id", chatId, questionRecord, now);
      resp := Response(200, JsonBody(Json.Object(map["answer" := Json.Str(answer)])));
    }

    /**
     * post: a request with a `pdf` part gets exactly what upload_pdf gives
     * it, which always inserts one record; anything else gets exactly what
     * ask_question gives it, which never inserts a record and changes
     * nothing unless it is answered.
     */
    method Post(req: Request, newId: string, chunks: seq<string>, llm: (MetadataKind, string) -> string,
                retrieval: Retrieval, now: int) returns (resp: Response)
      requires Valid()
      modifies this
      ensures Valid()
      ensures "pdf" in req.files ==> UploadOutcome(old(chats), req.files, newId, chunks, llm, now, resp, chats)
      ensures "pdf" !in req.files ==> AskOutcome(old(chats), req.json, retrieval, now, resp, chats)
      ensures "pdf" in req.files ==>
        resp.status == 200 && |chats| == |old(chats)| + 1 && chats[..|old(chats)|] == old(chats)
        && QuestionCount(chats) == QuestionCount(old(chats))
      ensures "pdf" !in req.files ==> |chats| == |old(chats)| && (resp.status != 200 ==> chats == old(chats))
    {
      if "pdf" in req.files {
        resp := UploadPdf(req.files, newId, chunks, llm, now);
      } else {
        resp := AskQuestion(req.json, retrieval, now);
      }
    }
  }
}
