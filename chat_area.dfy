/** The chat window: the history request it sends, the guards of its
    send and file-pick handlers, the envelope it emits, and the component
    state those handlers step (the message list, the input box, the staged
    file, the page counter, `hasMore` and `loading`). */
module ChatArea {
  import opened Js
  import opened Text
  import opened Wire
  import opened MessageList
  import SocketServer

  /** Messages asked for per history page. */
  const PerPage := 30

  /** Largest image, in bytes, that may be staged. */
  const MaxImageBytes := 2 * 1024 * 1024

  const FetchError := "获取历史消息失败"
  const UploadError := "文件上传失败，请重试"
  const ImageTooLarge := "表情包大小不能超过2MB"

  /** `/api/messages?page=${page}&limit=${PER_PAGE}`, with
      `&userId=${selectedUser.id}` appended when a user is selected. */
  function HistoryUrl(page: nat, selected: Option<UserInfo>): string
  {
    var base := "/api/messages?page=" + NatToString(page) + "&limit=" + NatToString(PerPage);
    if selected.Some? then base + "&userId=" + IntToString(selected.value.id) else base
  }

  /** The URL asks for `limit=30`, and selecting a user only appends the
      `userId` parameter to the URL for no selection. */
  lemma HistoryUrlShape(page: nat, u: UserInfo)
    ensures HistoryUrl(page, None) == "/api/messages?page=" + NatToString(page) + "&limit=30"
    ensures HistoryUrl(page, Some(u)) == HistoryUrl(page, None) + "&userId=" + IntToString(u.id)
  {
    assert NatToString(PerPage) == "30" by {
      assert NatToString(3) == [DigitChar(3)];
      assert DigitChar(3) == '3' && DigitChar(0) == '0';
    }
  }

  /** `setHasMore(newMessages.length === PER_PAGE)`. */
  predicate HasMore(page: seq<MessageRow>)
  {
    |page| == PerPage
  }

  /** A file the user picked: its MIME type and its size in bytes. */
  datatype PickedFile = PickedFile(name: string, mimeType: string, size: int)

  /** The one size check of `handleFileSelect`: images above 2 MiB. */
  predicate TooLarge(f: PickedFile)
  {
    StartsWith(f.mimeType, "image/") && f.size > MaxImageBytes
  }

  /** Only images are size-checked, against 2097152 bytes. */
  lemma TooLargeOnlyImages(f: PickedFile)
    ensures !StartsWith(f.mimeType, "image/") ==> !TooLarge(f)
    ensures StartsWith(f.mimeType, "image/") ==> (TooLarge(f) <==> f.size > 2097152)
  {
  }

  /** The guard of `handleSendMessage`, negated: there is text once
      trimmed or a staged file, and a connected socket. */
  predicate CanSend(input: string, staged: bool, socketPresent: bool, connected: bool)
  {
    !((Trim(input) == "" && !staged) || !socketPresent || !connected)
  }

  /** Input of white space alone counts as no input. */
  lemma CanSendMeaning(input: string, staged: bool, socketPresent: bool, connected: bool)
    ensures CanSend(input, staged, socketPresent, connected) <==>
      (!Blank(input) || staged) && socketPresent && connected
  {
    TrimEmptyIffBlank(input);
  }

  /** `selectedUser ? selectedUser.id : null`. */
  function ReceiverOf(selected: Option<UserInfo>): (r: JsVal)
    ensures r == Null <==> selected.None?
  {
    if selected.Some? then Num(selected.value.id) else Null
  }

  /** The envelope of a text message: the untrimmed input, addressed to
      the selected user or to nobody, and never to a group. */
  function TextEnvelope(selected: Option<UserInfo>, input: string): Envelope
  {
    Envelope(ReceiverOf(selected), Null, "text", input)
  }

  /** Where the server sends what this client emits: never to a group;
      to the selected user's room when that user's id is truthy, otherwise
      to the public room. */
  lemma ClientNeverAddressesGroups(selected: Option<UserInfo>, contentType: string, content: string)
    ensures var e := Envelope(ReceiverOf(selected), Null, contentType, content);
      SocketServer.Route(e) ==
        if selected.Some? && selected.value.id != 0 then SocketServer.UserRoom(Num(selected.value.id))
        else SocketServer.PublicRoom
  {
  }

  /** What `axios.post('/api/upload', ...)` gives back. */
  datatype UploadReply = Uploaded(fileUrl: string, fileType: string) | UploadFailed

  class ChatView {
    var messages: seq<MessageRow>
    var inputMessage: string
    var fileToUpload: Option<PickedFile>
    var page: nat
    var hasMore: bool
    var loading: bool
    var error: Option<string>
    var showEmojiPicker: bool
    var isConnected: bool
    var socketPresent: bool
    /** Every `send_message` the view has emitted, oldest first. */
    var sent: seq<Envelope>

    /** The list has unique ids and is sorted by timestamp; pages count
        from 1. */
    ghost predicate Valid()
      reads this
    {
      page >= 1 && UniqueIds(messages) && SortedByTime(messages)
    }

    /** The initial `useState` values. */
    constructor ()
      ensures Valid()
      ensures messages == [] && inputMessage == "" && fileToUpload == None
      ensures page == 1 && hasMore && loading && error == None
      ensures !showEmojiPicker && !isConnected && !socketPresent && sent == []
    {
      messages := [];
      inputMessage := "";
      fileToUpload := None;
      page := 1;
      hasMore := true;
      loading := true;
      error := None;
      showEmojiPicker := false;
      isConnected := false;
      socketPresent := false;
      sent := [];
    }

    /** The mount effect: without a token the view sends the user to
        `/login` and opens no socket. */
    method Mount(hasToken: bool) returns (redirectToLogin: bool)
      modifies this
      ensures redirectToLogin <==> !hasToken
      ensures socketPresent == (old(socketPresent) || hasToken)
      ensures messages == old(messages) && inputMessage == old(inputMessage) && page == old(page)
      ensures isConnected == old(isConnected) && sent == old(sent)
      ensures fileToUpload == old(fileToUpload) && hasMore == old(hasMore) && loading == old(loading)
      ensures error == old(error) && showEmojiPicker == old(showEmojiPicker)
    {
      if !hasToken {
        return true;
      }
      socketPresent := true;
      redirectToLogin := false;
    }

    /** The socket's `connect` and `disconnect` events. */
    method SetConnected(connected: bool)
      modifies this`isConnected
      ensures isConnected == connected
    {
      isConnected := connected;
    }

    /** The `receive_message` listener. */
    method ReceiveMessage(m: MessageRow)
      requires Valid()
      modifies this`messages
      ensures Valid()
      ensures messages == ReceiveLive(old(messages), m)
    {
      ReceiveLiveSpec(messages, m);
      messages := ReceiveLive(messages, m);
    }

    /** The history effect up to the request: nothing while disconnected,
        otherwise `loading` is set and the URL for the current page is
        requested. */
    method StartFetch(selected: Option<UserInfo>) returns (url: Option<string>)
      modifies this`loading
      ensures url.None? <==> !isConnected
      ensures url.Some? ==> url.value == HistoryUrl(page, selected) && loading
      ensures url.None? ==> loading == old(loading)
    {
      if !isConnected {
        return None;
      }
      loading := true;
      url := Some(HistoryUrl(page, selected));
    }

    /** The history reply arrived: merge it, derive `hasMore`, stop
        loading. */
    method FetchSucceeded(newMessages: seq<MessageRow>)
      requires Valid()
      modifies this`messages, this`hasMore, this`loading
      ensures Valid()
      ensures messages == MergePage(old(messages), newMessages)
      ensures hasMore == HasMore(newMessages) && !loading
    {
      MergePageSpec(messages, newMessages);
      messages := MergePage(messages, newMessages);
      hasMore := |newMessages| == PerPage;
      loading := false;
    }

    /** The history request failed: report it and stop loading. */
    method FetchFailed()
      modifies this`error, this`loading
      ensures error == Some(FetchError) && !loading
    {
      error := Some(FetchError);
      loading := false;
    }

    /** `loadMoreMessages`: one page further unless a load is running or
        the last page was short. */
    method LoadMore()
      modifies this`page
      ensures page == if loading || !hasMore then old(page) else old(page) + 1
    {
      if loading || !hasMore {
        return;
      }
      page := page + 1;
    }

    /** `handleScroll`: loads more only when the container exists and is
        scrolled to the very top. */
    method HandleScroll(containerPresent: bool, scrollTop: int)
      modifies this`page
      ensures page == if containerPresent && scrollTop == 0 && hasMore && !loading then old(page) + 1 else old(page)
    {
      if !containerPresent {
        return;
      }
      if scrollTop == 0 && hasMore && !loading {
        LoadMore();
      }
    }

    /** `handleSendMessage` with `handleFileUpload` inlined. A staged file
        is uploaded and its URL emitted; otherwise the input is emitted as
        text. The upload handler catches its own failure, so the input box
        is cleared whichever path ran. */
    method HandleSend(selected: Option<UserInfo>, upload: UploadReply) returns (emitted: Option<Envelope>)
      modifies this`inputMessage, this`fileToUpload, this`error, this`sent
      ensures !CanSend(old(inputMessage), old(fileToUpload).Some?, socketPresent, isConnected) ==>
        && emitted.None? && inputMessage == old(inputMessage)
        && fileToUpload == old(fileToUpload) && error == old(error)
      ensures CanSend(old(inputMessage), old(fileToUpload).Some?, socketPresent, isConnected) ==>
        && inputMessage == ""
        && (old(fileToUpload).None? ==>
              emitted == Some(TextEnvelope(selected, old(inputMessage)))
              && fileToUpload == None && error == old(error))
        && (old(fileToUpload).Some? && upload.Uploaded? ==>
              emitted == Some(Envelope(ReceiverOf(selected), Null, upload.fileType, upload.fileUrl))
              && fileToUpload == None && error == old(error))
        && (old(fileToUpload).Some? && upload.UploadFailed? ==>
              emitted.None? && fileToUpload == old(fileToUpload) && error == Some(UploadError))
      ensures sent == old(sent) + (if emitted.Some? then [emitted.value] else [])
    {
      emitted := None;
      if (Trim(inputMessage) == "" && fileToUpload.None?) || !socketPresent || !isConnected {
        return;
      }
      if fileToUpload.Some? {
        match upload
        case Uploaded(fileUrl, fileType) =>
          emitted := Some(Envelope(ReceiverOf(selected), Null, fileType, fileUrl));
          sent := sent + [emitted.value];
          fileToUpload := None;
        case UploadFailed =>
          error := Some(UploadError);
      } else {
        emitted := Some(TextEnvelope(selected, inputMessage));
        sent := sent + [emitted.value];
      }
      inputMessage := "";
    }

    /** `handleFileSelect`: no file changes nothing; an image over 2 MiB
        is refused with an error; anything else is staged. */
    method HandleFileSelect(file: Option<PickedFile>)
      modifies this`fileToUpload, this`error
      ensures file.None? ==> fileToUpload == old(fileToUpload) && error == old(error)
      ensures file.Some? && TooLarge(file.value) ==>
        fileToUpload == old(fileToUpload) && error == Some(ImageTooLarge)
      ensures file.Some? && !TooLarge(file.value) ==> fileToUpload == file && error == old(error)
    {
      if file.None? {
        return;
      }
      if StartsWith(file.value.mimeType, "image/") && file.value.size > 2 * 1024 * 1024 {
        error := Some(ImageTooLarge);
        return;
      }
      fileToUpload := file;
    }

    /** `addEmoji`: append at the end of the input and close the picker. */
    method AddEmoji(emoji: string)
      modifies this`inputMessage, this`showEmojiPicker
      ensures inputMessage == old(inputMessage) + emoji
      ensures inputMessage[..|old(inputMessage)|] == old(inputMessage)
      ensures !showEmojiPicker
    {
      inputMessage := inputMessage + emoji;
      showEmojiPicker := false;
    }
  }
}
