/**
 * The "Previous Chats" page: fetches the PDF chats once on mount and shows a
 * spinner, an error or the list. The request's outcome and the clock are
 * parameters.
 */
module ChatsPage {
  import opened Wrappers
  import Json
  import opened Listing

  /**
   * One listed chat: every field of the record (`...chat`), then `date` set
   * to the relative-time label and `tags` to `keywords` when that is an
   * array, else to an empty array.
   */
  function FormatChat(chat: map<string, Json.Value>, clock: Clock): (r: map<string, Json.Value>)
    ensures r.Keys == chat.Keys + {"date", "tags"}
    ensures forall k :: k in chat && k != "date" && k != "tags" ==> r[k] == chat[k]
    ensures r["date"] == Json.Str(LastActivityLabel(chat, clock))
    ensures Json.Get(chat, "keywords").Array? ==> r["tags"] == Json.Get(chat, "keywords")
    ensures !Json.Get(chat, "keywords").Array? ==> r["tags"] == Json.Array([])
  {
    var keywords := Json.Get(chat, "keywords");
    chat["date" := Json.Str(LastActivityLabel(chat, clock))]["tags" := if keywords.Array? then keywords else Json.Array([])]
  }

  /** `response.data.map(...)`: one listed chat per record, in the same order. */
  function FormatChats(records: seq<map<string, Json.Value>>, clock: Clock): (r: seq<map<string, Json.Value>>)
    ensures |r| == |records|
    ensures forall i :: 0 <= i < |r| ==> r[i] == FormatChat(records[i], clock)
  {
    seq(|records|, i requires 0 <= i < |records| => FormatChat(records[i], clock))
  }

  /** A chat without a usable `last_activity` (a PDF chat nobody has asked about yet) is listed as "Unknown time". */
  lemma UnaskedChatIsUnknownTime(chat: map<string, Json.Value>, clock: Clock)
    requires "last_activity" !in chat
    ensures FormatChat(chat, clock)["date"] == Json.Str("Unknown time")
  {
  }

  class AllChats {
    var chats: seq<map<string, Json.Value>>
    var loading: bool
    var error: Option<string>

    constructor ()
      ensures chats == [] && loading && error == None
    {
      chats, loading, error := [], true, None;
    }

    /**
     * fetchChats. On success the list is replaced and the error cleared; on
     * failure the list is kept and the error set by the usual precedence.
     * Either way loading ends (the `finally`).
     */
    method FetchChats(outcome: FetchOutcome, clock: Clock)
      modifies this
      ensures !loading
      ensures outcome.Fetched? ==> chats == FormatChats(outcome.records, clock) && error == None
      ensures outcome.FetchFailed? ==>
        chats == old(chats) && error == Some(FetchErrorMessage(outcome.serverError, outcome.message))
    {
      if outcome.Fetched? {
        var formattedChats := FormatChats(outcome.records, clock);
        chats := formattedChats;
        error := None;
      } else {
        error := Some(FetchErrorMessage(outcome.serverError, outcome.message));
      }
      loading := false;
    }

    /** What the page renders: loading takes priority over an error. */
    function CurrentView(): (v: View<map<string, Json.Value>>)
      reads this
      ensures loading ==> v == Spinner
      ensures !loading && error.Some? && error.value != "" ==> v == ErrorView(error.value)
      ensures !loading && (error.None? || error.value == "") ==> v == ListView(chats)
    {
      SelectView(loading, error, chats)
    }
  }

  /** After a failed fetch the page always shows the error view, whatever the failure carried. */
  lemma FailedFetchShowsError(serverError: Option<string>, message: string, chats: seq<map<string, Json.Value>>)
    ensures SelectView(false, Some(FetchErrorMessage(serverError, message)), chats)
      == ErrorView(FetchErrorMessage(serverError, message))
  {
  }
}
