/**
 * The single-PDF chat page: upload one PDF, then ask questions about it. The
 * transcript grows by a user message per accepted send and an agent message
 * per answer; the answer is revealed by a typewriter effect that overwrites
 * the last message with ever longer prefixes of the answer.
 *
 * The awaited calls are parameters: `uploadPDF` yields a chat id or null, and
 * `askQuestion` always yields a string (on failure "Error fetching answer").
 * A send is split at its `await` into HandleSendMessage (before) and
 * ReceiveAnswer (after), so that the state in between is visible.
 */
module ChatWithPdf {
  import opened Wrappers
  import opened Text
  import opened Ui

  datatype Sender = User | Agent

  datatype ChatMessage = ChatMessage(message: string, sender: Sender)

  const SendRejected := "Please upload a PDF and enter a question."
  const NoFileSelected := "Please select a PDF file to upload."
  const Uploading := "Uploading PDF..."
  const Uploaded := "PDF uploaded successfully!"
  const UploadFailed := "Failed to upload PDF."

  /**
   * typeMessage: the arguments its timer passes to the callback, in order.
   * One call per character; the k-th call (from 0) gets the first k + 1
   * characters, so the last call gets the whole text and "" gets no call.
   */
  method TypeMessage(text: string) returns (calls: seq<string>)
    ensures |calls| == |text|
    ensures forall k :: 0 <= k < |calls| ==> calls[k] == text[..k + 1]
    ensures |text| > 0 ==> calls[|text| - 1] == text
  {
    var index := 0;
    var currentText := "";
    calls := [];
    while index < |text|
      invariant 0 <= index <= |text|
      invariant currentText == text[..index]
      invariant |calls| == index
      invariant forall k :: 0 <= k < index ==> calls[k] == text[..k + 1]
    {
      currentText := currentText + [text[index]];
      calls := calls + [currentText];
      index := index + 1;
    }
    assert text[..|text|] == text;
  }

  /** The transcript with its last message replaced by `m`; everything before it is kept. */
  function WithLast(msgs: seq<ChatMessage>, m: ChatMessage): (r: seq<ChatMessage>)
    requires |msgs| > 0
    ensures |r| == |msgs|
    ensures r[..|r| - 1] == msgs[..|msgs| - 1] && r[|r| - 1] == m
  {
    msgs[|msgs| - 1 := m]
  }

  /** The guard of handleSendMessage: an uploaded PDF and a question that is not blank. */
  predicate CanSend(pdfId: Option<string>, input: string)
    ensures CanSend(pdfId, input) ==> pdfId.Some? && pdfId.value != "" && input != ""
  {
    pdfId.Some? && pdfId.value != "" && Trim(JavaScript, input) != ""
  }

  /** The guard rejects exactly a missing chat id or an input made only of whitespace. */
  lemma CanSendIff(pdfId: Option<string>, input: string)
    ensures CanSend(pdfId, input) <==> pdfId.Some? && pdfId.value != "" && !AllSpace(JavaScript, input)
  {
  }

  /**
   * Turns alternate: user messages at even positions (never blank), agent
   * messages at odd positions.
   */
  ghost predicate Alternates(msgs: seq<ChatMessage>)
  {
    forall i :: 0 <= i < |msgs| ==>
      if i % 2 == 0 then msgs[i].sender == User && !AllSpace(JavaScript, msgs[i].message)
      else msgs[i].sender == Agent
  }

  /** Appending the message whose turn it is keeps the transcript alternating. */
  lemma AlternatesAppend(msgs: seq<ChatMessage>, m: ChatMessage)
    requires Alternates(msgs)
    requires |msgs| % 2 == 0 ==> m.sender == User && !AllSpace(JavaScript, m.message)
    requires |msgs| % 2 == 1 ==> m.sender == Agent
    ensures Alternates(msgs + [m])
  {
    var r := msgs + [m];
    forall j | 0 <= j < |r|
      ensures if j % 2 == 0 then r[j].sender == User && !AllSpace(JavaScript, r[j].message)
              else r[j].sender == Agent
    {
      if j < |msgs| {
        assert r[j] == msgs[j];
      }
    }
  }

  class ChatWithPdfPage {
    var pdfFile: Option<string>
    var pdfId: Option<string>
    var chatMessages: seq<ChatMessage>
    var inputMessage: string
    var askingAI: bool
    var showChat: bool
    var toasts: seq<Toast>

    /**
     * The transcript alternates, and a question is outstanding exactly when it
     * ends with a user message. The chat is shown exactly when a chat id is held.
     */
    ghost predicate Valid()
      reads this
    {
      && Alternates(chatMessages)
      && (askingAI <==> |chatMessages| % 2 == 1)
      && (showChat <==> pdfId.Some?)
      && (pdfId.Some? ==> pdfId.value != "")
    }

    /** The Send button is disabled while the answer is awaited. */
    function SendEnabled(): bool
      reads this
    {
      !askingAI
    }

    constructor ()
      ensures Valid()
      ensures pdfFile == None && pdfId == None && chatMessages == [] && inputMessage == ""
      ensures !askingAI && !showChat && toasts == []
    {
      pdfFile, pdfId, chatMessages, inputMessage := None, None, [], "";
      askingAI, showChat, toasts := false, false, [];
    }

    /** The file input's onChange: the first selected file, if any. */
    method ChooseFile(file: Option<string>)
      modifies this`pdfFile
      ensures pdfFile == file
    {
      pdfFile := file;
    }

    /** The text input's onChange. */
    method TypeInput(text: string)
      modifies this`inputMessage
      ensures inputMessage == text
    {
      inputMessage := text;
    }

    /**
     * handleUpload. Without a selected file it raises an error and makes no
     * upload (`attempted` is false). Otherwise `uploadedId` is what uploadPDF
     * returned: a non-empty id is kept and opens the chat; null or "" leaves
     * the chat hidden.
     */
    method HandleUpload(uploadedId: Option<string>) returns (attempted: bool)
      requires Valid()
      modifies this`pdfId, this`showChat, this`toasts
      ensures Valid()
      ensures attempted <==> old(pdfFile).Some?
      ensures !attempted ==>
        pdfId == old(pdfId) && showChat == old(showChat) && toasts == old(toasts) + [Toast(Error, NoFileSelected)]
      ensures attempted && uploadedId.Some? && uploadedId.value != "" ==>
        pdfId == uploadedId && showChat && toasts == old(toasts) + [Toast(Info, Uploading), Toast(Success, Uploaded)]
      ensures attempted && (uploadedId.None? || uploadedId.value == "") ==>
        pdfId == old(pdfId) && showChat == old(showChat)
        && toasts == old(toasts) + [Toast(Info, Uploading), Toast(Error, UploadFailed)]
    {
      if pdfFile.None? {
        toasts := toasts + [Toast(Error, NoFileSelected)];
        return false;
      }
      attempted := true;
      toasts := toasts + [Toast(Info, Uploading)];
      if uploadedId.Some? && uploadedId.value != "" {
        pdfId := uploadedId;
        showChat := true;
        toasts := toasts + [Toast(Success, Uploaded)];
      } else {
        toasts := toasts + [Toast(Error, UploadFailed)];
      }
    }

    /**
     * handleSendMessage up to its `await`. Only reachable through the Send
     * button, hence only while it is enabled. A rejected send raises an error
     * and changes nothing else. An accepted send returns the question to ask
     * (the input as typed, not trimmed), appends it as the user's message,
     * clears the input and marks the answer as awaited.
     */
    method HandleSendMessage() returns (question: Option<string>)
      requires Valid() && SendEnabled()
      modifies this`chatMessages, this`inputMessage, this`askingAI, this`toasts
      ensures Valid()
      ensures question.Some? <==> CanSend(old(pdfId), old(inputMessage))
      ensures question.None? ==>
        && chatMessages == old(chatMessages) && inputMessage == old(inputMessage) && !askingAI
        && toasts == old(toasts) + [Toast(Error, SendRejected)]
      ensures question.Some? ==>
        && question.value == old(inputMessage)
        && chatMessages == old(chatMessages) + [ChatMessage(old(inputMessage), User)]
        && inputMessage == "" && askingAI && toasts == old(toasts)
    {
      CanSendIff(pdfId, inputMessage);
      if !CanSend(pdfId, inputMessage) {
        toasts := toasts + [Toast(Error, SendRejected)];
        return None;
      }
      askingAI := true;
      var userMessage := ChatMessage(inputMessage, User);
      AlternatesAppend(chatMessages, userMessage);
      chatMessages := chatMessages + [userMessage];
      question := Some(inputMessage);
      inputMessage := "";
    }

    /** The typewriter callback: overwrite the last message with the revealed prefix. */
    method ShowTyped(updatedText: string)
      requires |chatMessages| > 0
      modifies this`chatMessages
      ensures chatMessages == WithLast(old(chatMessages), ChatMessage(updatedText, Agent))
    {
      var updatedMessages := chatMessages;
      updatedMessages := updatedMessages[|updatedMessages| - 1 := ChatMessage(updatedText, Agent)];
      chatMessages := updatedMessages;
    }

    /**
     * handleSendMessage after its `await`, with `response` the answer string.
     * The Send button is enabled again, one empty agent message is appended,
     * and the typewriter then fills it in; when the animation ends the new
     * message holds the whole answer and nothing before it has changed.
     */
    method ReceiveAnswer(response: string)
      requires Valid() && askingAI
      modifies this`chatMessages, this`askingAI
      ensures Valid() && !askingAI
      ensures chatMessages == old(chatMessages) + [ChatMessage(response, Agent)]
    {
      assert |chatMessages| % 2 == 1;
      askingAI := false;
      var botMessage := ChatMessage("", Agent);
      chatMessages := chatMessages + [botMessage];
      ghost var before := old(chatMessages);
      var calls := TypeMessage(response);
      var i := 0;
      while i < |calls|
        invariant 0 <= i <= |calls|
        invariant !askingAI
        invariant chatMessages == before + [ChatMessage(if i == 0 then "" else calls[i - 1], Agent)]
      {
        ShowTyped(calls[i]);
        i := i + 1;
      }
      assert |response| > 0 ==> calls[|calls| - 1] == response;
      assert chatMessages == before + [ChatMessage(response, Agent)];
      AlternatesAppend(before, ChatMessage(response, Agent));
    }
  }
}
