/**
 * The URL chat page: a URL field that starts processing a web page, and the
 * list of earlier URL chats fetched on mount. `processURL`'s outcome, the list
 * request's outcome and the clock are parameters.
 */
module ChatUrlPage {
  import opened Wrappers
  import opened Text
  import Json
  import opened Ui
  import opened Listing

  const EmptyUrl := "Please enter a valid URL."
  const Processing := "Processing URL..."
  const Processed := "URL processed successfully!"
  const NotProcessed := "Failed to process URL."
  const ProcessingError := "An error occurred while processing the URL."

  /** What awaiting processURL gave: an id (or null), or an exception. */
  datatype ProcessCall = Returned(urlId: Option<string>) | Threw

  /** One listed URL chat: every field of the record, then `date` set to the relative-time label. */
  function FormatUrlChat(chat: map<string, Json.Value>, clock: Clock): (r: map<string, Json.Value>)
    ensures r.Keys == chat.Keys + {"date"}
    ensures forall k :: k in chat && k != "date" ==> r[k] == chat[k]
    ensures r["date"] == Json.Str(LastActivityLabel(chat, clock))
  {
    chat["date" := Json.Str(LastActivityLabel(chat, clock))]
  }

  /** `response.data.map(...)`: one listed URL chat per record, in the same order. */
  function FormatUrlChats(records: seq<map<string, Json.Value>>, clock: Clock): (r: seq<map<string, Json.Value>>)
    ensures |r| == |records|
    ensures forall i :: 0 <= i < |r| ==> r[i] == FormatUrlChat(records[i], clock)
  {
    seq(|records|, i requires 0 <= i < |records| => FormatUrlChat(records[i], clock))
  }

  class ChatUrl {
    var url: string
    var isProcessing: bool
    var chats: seq<map<string, Json.Value>>
    var loading: bool
    var error: Option<string>
    var toasts: seq<Toast>

    constructor ()
      ensures url == "" && !isProcessing && chats == [] && loading && error == None && toasts == []
    {
      url, isProcessing, chats, loading, error, toasts := "", false, [], true, None, [];
    }

    /** The URL field's onChange. */
    method TypeUrl(text: string)
      modifies this`url
      ensures url == text
    {
      url := text;
    }

    /**
     * fetchChats. On success the list is replaced and the error cleared; on
     * failure the list is kept and the error set by the usual precedence.
     * Either way loading ends.
     */
    method FetchChats(outcome: FetchOutcome, clock: Clock)
      modifies this`chats, this`loading, this`error
      ensures !loading
      ensures outcome.Fetched? ==> chats == FormatUrlChats(outcome.records, clock) && error == None
      ensures outcome.FetchFailed? ==>
        chats == old(chats) && error == Some(FetchErrorMessage(outcome.serverError, outcome.message))
    {
      if outcome.Fetched? {
        var formattedChats := FormatUrlChats(outcome.records, clock);
        chats := formattedChats;
        error := None;
      } else {
        error := Some(FetchErrorMessage(outcome.serverError, outcome.message));
      }
      loading := false;
    }

    /** What the list column renders: loading takes priority over an error. */
    function CurrentView(): (v: View<map<string, Json.Value>>)
      reads this
      ensures loading ==> v == Spinner
      ensures !loading && error.Some? && error.value != "" ==> v == ErrorView(error.value)
      ensures !loading && (error.None? || error.value == "") ==> v == ListView(chats)
    {
      SelectView(loading, error, chats)
    }

    /**
     * handleProcessURL. A blank URL raises an error and makes no processing
     * call (`called` is false, nothing else changes). Otherwise the page
     * navigates to "/chat-url/<id>" exactly when a non-empty id comes back,
     * and processing has ended whatever the outcome.
     */
    method HandleProcessURL(call: ProcessCall) returns (called: bool, route: Option<string>)
      modifies this`isProcessing, this`toasts
      ensures called <==> Trim(JavaScript, old(url)) != ""
      ensures !called ==> route == None && isProcessing == old(isProcessing) && toasts == old(toasts) + [Toast(Error, EmptyUrl)]
      ensures called ==> !isProcessing
      ensures route.Some? <==> called && call.Returned? && call.urlId.Some? && call.urlId.value != ""
      ensures route.Some? ==> route.value == "/chat-url/" + call.urlId.value
      ensures called && route.Some? ==> toasts == old(toasts) + [Toast(Info, Processing), Toast(Success, Processed)]
      ensures called && call.Returned? && route.None? ==>
        toasts == old(toasts) + [Toast(Info, Processing), Toast(Error, NotProcessed)]
      ensures called && call.Threw? ==> toasts == old(toasts) + [Toast(Info, Processing), Toast(Error, ProcessingError)]
    {
      if Trim(JavaScript, url) == "" {
        toasts := toasts + [Toast(Error, EmptyUrl)];
        return false, None;
      }
      called := true;
      route := None;
      isProcessing := true;
      toasts := toasts + [Toast(Info, Processing)];
      if call.Threw? {
        toasts := toasts + [Toast(Error, ProcessingError)];
      } else if call.urlId.Some? && call.urlId.value != "" {
        toasts := toasts + [Toast(Success, Processed)];
        route := Some("/chat-url/" + call.urlId.value);
      } else {
        toasts := toasts + [Toast(Error, NotProcessed)];
      }
      isProcessing := false;
    }
  }
}
