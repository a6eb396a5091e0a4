/**
 * The page header's title, chosen from the current pathname. A pathname of
 * the form "/chats/<id>" asks the server for that chat's name; the title then
 * depends on the reply.
 */
module Header {
  import opened Wrappers
  import opened Text

  /** The title outright, or the chat id whose name must be fetched. */
  datatype TitleRule = Fixed(title: string) | FetchTitle(chatId: string)

  const PreviousChats := "Previous Chats"
  const NewChat := "New Chat"
  const FallbackTitle := "Chat"

  /** The non-empty pieces of the path between slashes, in order: `split("/").filter(Boolean)`. */
  function NonEmpty(pieces: seq<string>): (r: seq<string>)
    ensures |r| <= |pieces|
    ensures forall i :: 0 <= i < |r| ==> r[i] != ""
    ensures forall s :: s in r <==> s in pieces && s != ""
  {
    if pieces == [] then []
    else (if pieces[0] == "" then [] else [pieces[0]]) + NonEmpty(pieces[1..])
  }

  function Segments(pathname: string): (r: seq<string>)
    ensures forall i :: 0 <= i < |r| ==> r[i] != "" && '/' !in r[i]
  {
    var pieces := Split(pathname, '/');
    var r := NonEmpty(pieces);
    assert forall i :: 0 <= i < |r| ==> r[i] in r;
    r
  }

  /** The rule inside the header's effect, branch by branch in source order. */
  function TitleFor(pathname: string): (r: TitleRule)
    ensures r.Fixed? ==> r.title == PreviousChats || r.title == NewChat
    ensures r.FetchTitle? ==> r.chatId != "" && '/' !in r.chatId
  {
    var segments := Segments(pathname);
    if pathname == "/chats" then Fixed(PreviousChats)
    else if pathname == "/chats/upload-pdf" then Fixed(NewChat)
    else if |segments| >= 2 && segments[0] == "chats" then FetchTitle(segments[1])
    else Fixed(PreviousChats)
  }

  /**
   * The only titles are "Previous Chats", "New Chat" and a fetch; a fetch
   * happens exactly for a pathname other than the two fixed ones whose first
   * two segments are "chats" and the id, whatever follows.
   */
  lemma TitleForCases(pathname: string)
    ensures TitleFor(pathname).Fixed? ==> TitleFor(pathname).title in {PreviousChats, NewChat}
    ensures TitleFor(pathname).Fixed? && TitleFor(pathname).title == NewChat <==> pathname == "/chats/upload-pdf"
    ensures TitleFor(pathname).FetchTitle? <==>
      pathname != "/chats" && pathname != "/chats/upload-pdf"
      && |Segments(pathname)| >= 2 && Segments(pathname)[0] == "chats"
    ensures TitleFor(pathname).FetchTitle? ==>
      TitleFor(pathname).chatId == Segments(pathname)[1] && TitleFor(pathname).chatId != ""
  {
  }

  /** A doubled slash makes no extra segment. */
  lemma SegmentsIgnoreDoubledSlash(a: string, b: string)
    ensures Segments(a + "//" + b) == Segments(a + "/" + b)
  {
    var pa, pb := Split(a, '/'), Split(b, '/');
    SplitDoubledSlash(a, b);
    SplitSingleSlash(a, b);
    NonEmptyConcat(pa + [""], pb);
    NonEmptyConcat(pa, [""]);
    NonEmptyConcat(pa, pb);
    assert NonEmpty([""]) == [];
  }

  lemma SplitSingleSlash(a: string, b: string)
    ensures Split(a + "/" + b, '/') == Split(a, '/') + Split(b, '/')
  {
    assert a + "/" + b == a + ['/'] + b;
    SplitAtSeparator(a, b, '/');
  }

  lemma SplitDoubledSlash(a: string, b: string)
    ensures Split(a + "//" + b, '/') == Split(a, '/') + [""] + Split(b, '/')
  {
    assert a + "//" + b == a + ['/'] + ("/" + b);
    SplitAtSeparator(a, "/" + b, '/');
    assert "/" + b == [] + ['/'] + b;
    SplitAtSeparator([], b, '/');
  }

  /** A leading slash makes no extra segment. */
  lemma SegmentsIgnoreLeadingSlash(a: string)
    ensures Segments("/" + a) == Segments(a)
  {
    assert "/" + a == [] + ['/'] + a;
    SplitAtSeparator([], a, '/');
    NonEmptyConcat([""], Split(a, '/'));
  }

  /** A trailing slash makes no extra segment. */
  lemma SegmentsIgnoreTrailingSlash(a: string)
    ensures Segments(a + "/") == Segments(a)
  {
    assert a + "/" == a + ['/'] + [];
    SplitAtSeparator(a, [], '/');
    NonEmptyConcat(Split(a, '/'), [""]);
    assert Split(a, '/') + [""] == Split(a + "/", '/');
  }

  lemma {:induction false} NonEmptyConcat(p: seq<string>, q: seq<string>)
    ensures NonEmpty(p + q) == NonEmpty(p) + NonEmpty(q)
    decreases |p|
  {
    if p == [] {
      assert p + q == q;
    } else {
      assert (p + q)[0] == p[0] && (p + q)[1..] == p[1..] + q;
      NonEmptyConcat(p[1..], q);
    }
  }

  /** The dynamic branch never treats "upload-pdf" as a chat id for the upload page's own path. */
  lemma UploadPageIsNotAChat()
    ensures TitleFor("/chats/upload-pdf") == Fixed(NewChat)
  {
  }

  /** An id followed by nothing or by a slash is the first piece. */
  lemma SplitIdFirst(id: string, rest: string)
    requires '/' !in id
    requires rest == "" || rest[0] == '/'
    ensures Split(id + rest, '/')[0] == id
  {
    SplitWithoutSeparator(id, '/');
    if rest == "" {
      assert id + rest == id;
    } else {
      assert id + rest == id + ['/'] + rest[1..];
      SplitAtSeparator(id, rest[1..], '/');
    }
  }

  /** "/chats/<tail>" splits into "", "chats" and the pieces of the tail. */
  lemma SplitChatsPrefix(tail: string)
    ensures Split("/chats/" + tail, '/') == ["", "chats"] + Split(tail, '/')
  {
    assert "/chats/" + tail == "" + ['/'] + ("chats" + ['/'] + tail);
    SplitAtSeparator("", "chats" + ['/'] + tail, '/');
    SplitAtSeparator("chats", tail, '/');
    SplitWithoutSeparator("chats", '/');
  }

  /** The first two segments of "/chats/<id><rest>" are "chats" and the id. */
  lemma ChatPathSegments(id: string, rest: string)
    requires id != "" && '/' !in id
    requires rest == "" || rest[0] == '/'
    ensures |Segments("/chats/" + id + rest)| >= 2
    ensures Segments("/chats/" + id + rest)[..2] == ["chats", id]
  {
    var tail := id + rest;
    assert "/chats/" + id + rest == "/chats/" + tail;
    SplitChatsPrefix(tail);
    SplitIdFirst(id, rest);
    var after := Split(tail, '/')[1..];
    assert Split(tail, '/') == [id] + after;
    NonEmptyConcat(["", "chats"], Split(tail, '/'));
    NonEmptyConcat([id], after);
    assert NonEmpty([id]) == [id] by {
      assert [id][1..] == [];
    }
    assert NonEmpty(["", "chats"]) == ["chats"] by {
      assert ["", "chats"][1..] == ["chats"];
      assert ["chats"][1..] == [];
    }
  }

  /** "/chats/<id><rest>" is neither fixed-title path, except the upload path itself. */
  lemma ChatPathIsNotFixed(id: string, rest: string)
    requires id != "" && '/' !in id
    requires rest == "" || rest[0] == '/'
    requires id != "upload-pdf" || rest != ""
    ensures "/chats/" + id + rest != "/chats"
    ensures "/chats/" + id + rest != "/chats/upload-pdf"
  {
    var p := "/chats/" + id + rest;
    assert |p| > 7;
    assert p[7..7 + |id|] == id;
  }

  /**
   * "/chats/abc" and deeper paths fetch the title of chat "abc". Only the
   * exact upload path is exempt: "/chats/upload-pdf/" or
   * "/chats/upload-pdf/x" fetches a chat named "upload-pdf".
   */
  lemma ChatPathFetchesItsId(id: string, rest: string)
    requires id != "" && '/' !in id
    requires rest == "" || rest[0] == '/'
    requires id != "upload-pdf" || rest != ""
    ensures TitleFor("/chats/" + id + rest) == FetchTitle(id)
  {
    ChatPathSegments(id, rest);
    ChatPathIsNotFixed(id, rest);
    var segments := Segments("/chats/" + id + rest);
    assert segments[0] == segments[..2][0] && segments[1] == segments[..2][1];
  }

  /**
   * The title after a fetch: the returned `name` when it is a non-empty
   * string, otherwise "Chat"; a failed request (None) gives "Chat" too.
   */
  function FetchedTitle(reply: Option<Option<string>>): (title: string)
    ensures title != ""
    ensures reply.Some? && reply.value.Some? && reply.value.value != "" ==> title == reply.value.value
    ensures reply.None? || reply.value.None? || reply.value.value == "" ==> title == FallbackTitle
  {
    if reply.Some? && reply.value.Some? && reply.value.value != "" then reply.value.value else FallbackTitle
  }
}
