/** The fellowship chat: the shared history, sending text and attachments,
    the guide's automatic reply to messages about prayer or the Bible, and
    who may remove which message. */
module ChatPage {
  import opened Types
  import opened Text
  import Lists
  import StorageService
  import GeminiService

  const BOT_ID: string := "bot"
  const SYSTEM_ID: string := "system"
  const BOT_NAME: string := "Spiritual Guide"
  const MEETING_URL: string := "https://meet.google.com/new"
  const MEETING_TEXT: string := "Join the online fellowship: " + MEETING_URL
  const VOICE_NOTE_NAME: string := "VoiceNote.webm"

  /** The send guard: something to say, or an attachment. */
  function ShouldSend(text: string, media: Option<Attachment>): (send: bool)
    ensures send <==> media.Some? || exists i :: 0 <= i < |text| && !IsWhitespace(text[i])
  {
    !IsBlank(text) || media.Some?
  }

  /** The message a user sends; its id and time come from the random source
      and the clock. */
  function NewMessage(user: User, text: string, media: Option<Attachment>, id: string, now: int): (m: ChatMessage)
    ensures m.id == id && m.timestamp == now
    ensures m.userId == user.id && m.userName == user.name && m.userRole == user.role
    ensures m.userPic == user.profilePic
    ensures m.content == text && m.media == media
  {
    ChatMessage(id, user.id, user.name, user.role, user.profilePic, text, now, media)
  }

  /** The guide answers a message that mentions "pray" or "bible" in any
      letter case. */
  function WantsBotReply(text: string): (wants: bool)
    ensures wants <==>
      (exists k :: OccursAt(ToLower(text), "pray", k)) || (exists k :: OccursAt(ToLower(text), "bible", k))
  {
    ContainsIff(ToLower(text), "pray");
    ContainsIff(ToLower(text), "bible");
    Contains(ToLower(text), "pray") || Contains(ToLower(text), "bible")
  }

  /** The guide's message, carrying the insight text. */
  function BotMessage(reply: GeminiService.InsightReply, id: string, now: int): (m: ChatMessage)
    ensures m.userId == BOT_ID && m.userName == BOT_NAME && m.userRole == Guest
    ensures m.content == GeminiService.GetSpiritualInsight(reply) && m.content != ""
    ensures m.userPic.None? && m.media.None?
  {
    ChatMessage(id, BOT_ID, BOT_NAME, Guest, None, GeminiService.GetSpiritualInsight(reply), now, None)
  }

  /** Messages from the system or the guide are shown as centred notices. */
  predicate IsSystem(m: ChatMessage)
  {
    m.userId == SYSTEM_ID || m.userId == BOT_ID
  }

  /** The delete control shows on an ordinary message to its author and to
      Trainers; notices never have one. */
  predicate ShowsDelete(m: ChatMessage, viewer: User)
  {
    !IsSystem(m) && (m.userId == viewer.id || viewer.role == Trainer)
  }

  const IMAGE_PREFIX: string := "image/"
  const VIDEO_PREFIX: string := "video/"
  const AUDIO_PREFIX: string := "audio/"

  /** The attachment kind of an uploaded file, from its MIME type: image,
      video and audio by prefix, anything else a document. */
  function ClassifyUpload(mime: string): (t: MediaType)
    ensures StartsWith(mime, IMAGE_PREFIX) ==> t == Image
    ensures !StartsWith(mime, IMAGE_PREFIX) && StartsWith(mime, VIDEO_PREFIX) ==> t == Video
    ensures !StartsWith(mime, IMAGE_PREFIX) && !StartsWith(mime, VIDEO_PREFIX) && StartsWith(mime, AUDIO_PREFIX) ==> t == Audio
    ensures t == Document <==> !StartsWith(mime, IMAGE_PREFIX) && !StartsWith(mime, VIDEO_PREFIX) && !StartsWith(mime, AUDIO_PREFIX)
  {
    if StartsWith(mime, IMAGE_PREFIX) then Image
    else if StartsWith(mime, VIDEO_PREFIX) then Video
    else if StartsWith(mime, AUDIO_PREFIX) then Audio
    else Document
  }

  /** The MIME prefix that announces each non-document kind. */
  function MimePrefix(t: MediaType): string
  {
    match t
    case Image => IMAGE_PREFIX
    case Video => VIDEO_PREFIX
    case Audio => AUDIO_PREFIX
    case Document => ""
  }

  // ---- properties ----

  /** A file whose MIME type starts with a kind's prefix is classified as that
      kind, whatever follows the prefix. */
  lemma ClassifyByPrefix(t: MediaType, subtype: string)
    requires t != Document
    ensures ClassifyUpload(MimePrefix(t) + subtype) == t
  {
    var mime := MimePrefix(t) + subtype;
    assert mime[..6] == MimePrefix(t);
    assert StartsWith(mime, MimePrefix(t));
  }

  /** The guide's own messages are notices, which nobody, not even a Trainer,
      is offered to delete. */
  lemma BotMessagesHaveNoDelete(reply: GeminiService.InsightReply, id: string, now: int, viewer: User)
    ensures IsSystem(BotMessage(reply, id, now))
    ensures !ShowsDelete(BotMessage(reply, id, now), viewer)
  {
  }

  /** A Trainer is offered deletion of every ordinary message; anyone else
      only of their own. */
  lemma DeleteRights(m: ChatMessage, viewer: User)
    requires !IsSystem(m)
    ensures viewer.role == Trainer ==> ShowsDelete(m, viewer)
    ensures viewer.role != Trainer ==> (ShowsDelete(m, viewer) <==> m.userId == viewer.id)
  {
  }

  /** The reply test ignores letter case. */
  lemma WantsBotReplyIgnoresCase(text: string)
    ensures WantsBotReply(ToLower(text)) == WantsBotReply(text)
  {
    ToLowerIdempotent(text);
  }

  /** "Please PRAY for me" asks for the guide. */
  lemma ShoutedPrayerAsksForGuide()
    ensures WantsBotReply("Please PRAY for me")
  {
    var low := ToLower("Please PRAY for me");
    assert low[7..][..4] == "pray";
    ContainsAt(low, "pray", 7);
  }

  /** The meeting invitation mentions neither prayer nor the Bible: it has
      no `r` and no `b` in either case, so the guide stays silent. */
  lemma MeetingTextIsQuiet()
    ensures !WantsBotReply(MEETING_TEXT)
  {
    var lead := "Join the online fellowship: ";
    forall j | 0 <= j < |lead| ensures lead[j] !in {'r', 'R', 'b', 'B'} { }
    forall j | 0 <= j < |MEETING_URL| ensures MEETING_URL[j] !in {'r', 'R', 'b', 'B'} { }
    assert forall j :: 0 <= j < |MEETING_TEXT| ==> MEETING_TEXT[j] !in {'r', 'R', 'b', 'B'} by {
      forall j | 0 <= j < |MEETING_TEXT| ensures MEETING_TEXT[j] !in {'r', 'R', 'b', 'B'} {
        if j < |lead| {
          assert MEETING_TEXT[j] == lead[j];
        } else {
          assert MEETING_TEXT[j] == MEETING_URL[j - |lead|];
        }
      }
    }
    var low := ToLower(MEETING_TEXT);
    LackingCharNotContained(low, "pray", 2);
    LackingCharNotContained(low, "bible", 0);
  }

  /** The state of the chat page over the record store. */
  class ChatState {
    var messages: seq<ChatMessage>
    var input: string
    var isTyping: bool
    var isRecording: bool
    var mediaFile: Option<Attachment>
    /** Whether a voice recorder has been created (`mediaRecorderRef.current`
        is set); it is never cleared once set. */
    var hasRecorder: bool
    const user: User
    const store: StorageService.RecordStore

    ghost predicate Valid()
      reads this, store
    {
      store.Valid()
    }

    constructor (user: User, store: StorageService.RecordStore)
      requires store.Valid()
      ensures Valid() && this.user == user && this.store == store
      ensures messages == [] && input == "" && !isTyping && !isRecording && mediaFile == None
      ensures !hasRecorder
    {
      this.user := user;
      this.store := store;
      messages := [];
      input := "";
      isTyping := false;
      isRecording := false;
      mediaFile := None;
      hasRecorder := false;
    }

    /** `refreshData`, run on mount and on every `storage_sync`. */
    method Refresh()
      modifies this
      ensures hasRecorder == old(hasRecorder)
      ensures messages == store.Chat()
      ensures input == old(input) && isTyping == old(isTyping)
      ensures isRecording == old(isRecording) && mediaFile == old(mediaFile)
    {
      messages := store.Chat();
    }

    /** The first half of `handleSend`, up to the await: posts the message
        (the typed input, or `customText` when given), clears the composer,
        and starts the typing indicator when the guide will answer. Returns
        whether anything was sent, so that the activity notification and the
        guide's reply can follow. */
    method HandleSend(customText: Option<string>, id: string, now: int) returns (sent: bool)
      requires Valid()
      modifies this, store
      ensures hasRecorder == old(hasRecorder)
      ensures Valid()
      ensures var text := if customText.Some? then customText.value else old(input);
        && (sent <==> ShouldSend(text, old(mediaFile)))
        && (!sent ==> unchanged(this) && unchanged(store))
        && (sent ==>
              && store.items == old(store.items)[StorageService.CHAT_KEY :=
                   StorageService.ChatList(old(store.Chat()) + [NewMessage(user, text, old(mediaFile), id, now)])]
              && store.syncEvents == old(store.syncEvents) + 1
              && messages == store.Chat()
              && input == "" && mediaFile == None
              && isTyping == (old(isTyping) || WantsBotReply(text)))
      ensures isRecording == old(isRecording)
    {
      var text := if customText.Some? then customText.value else input;
      if !ShouldSend(text, mediaFile) {
        return false;
      }
      var msg := NewMessage(user, text, mediaFile, id, now);
      store.AddChatMessage(msg);
      Refresh();
      input := "";
      mediaFile := None;
      if WantsBotReply(text) {
        isTyping := true;
      }
      sent := true;
    }

    /** The second half of `handleSend`, once the insight request settles:
        the indicator goes off and the guide's message is posted. */
    method CompleteBotReply(reply: GeminiService.InsightReply, id: string, now: int)
      requires Valid()
      modifies this, store
      ensures hasRecorder == old(hasRecorder)
      ensures Valid()
      ensures !isTyping
      ensures store.items == old(store.items)[StorageService.CHAT_KEY :=
                StorageService.ChatList(old(store.Chat()) + [BotMessage(reply, id, now)])]
      ensures store.syncEvents == old(store.syncEvents) + 1
      ensures messages == store.Chat()
      ensures input == old(input) && mediaFile == old(mediaFile) && isRecording == old(isRecording)
    {
      isTyping := false;
      store.AddChatMessage(BotMessage(reply, id, now));
      Refresh();
    }

    /** `startMeeting`: posts the meeting link (opening the meeting itself is
        not modelled). */
    method StartMeeting(id: string, now: int) returns (sent: bool)
      requires Valid()
      modifies this, store
      ensures hasRecorder == old(hasRecorder)
      ensures Valid()
      ensures sent
      ensures store.items == old(store.items)[StorageService.CHAT_KEY :=
                StorageService.ChatList(old(store.Chat()) + [NewMessage(user, MEETING_TEXT, old(mediaFile), id, now)])]
      ensures store.syncEvents == old(store.syncEvents) + 1
      ensures messages == store.Chat() && input == "" && mediaFile == None
      ensures isTyping == old(isTyping) && isRecording == old(isRecording)
    {
      assert !IsBlank(MEETING_TEXT) by {
        assert "Join the online fellowship: "[0] == 'J';
        assert !IsWhitespace(MEETING_TEXT[0]);
      }
      MeetingTextIsQuiet();
      sent := HandleSend(Some(MEETING_TEXT), id, now);
    }

    /** `deleteMessage`: removes the message once the user confirms. */
    method DeleteMessage(id: string, confirmed: bool)
      requires Valid()
      modifies this, store
      ensures hasRecorder == old(hasRecorder)
      ensures Valid()
      ensures !confirmed ==> unchanged(this) && unchanged(store)
      ensures confirmed ==>
        && store.items == old(store.items)[StorageService.CHAT_KEY :=
             StorageService.ChatList(Lists.Without(old(store.Chat()), id, MessageId))]
        && store.syncEvents == old(store.syncEvents) + 1
        && messages == store.Chat()
      ensures input == old(input) && mediaFile == old(mediaFile)
      ensures isTyping == old(isTyping) && isRecording == old(isRecording)
    {
      if confirmed {
        store.DeleteChatMessage(id);
        Refresh();
      }
    }

    /** `handleFileUpload`, once the file has been read: the file becomes the
        pending attachment, classified by its MIME type. */
    method HandleFileUpload(mime: string, data: string, name: string)
      modifies this
      ensures hasRecorder == old(hasRecorder)
      ensures mediaFile == Some(Attachment(ClassifyUpload(mime), data, Some(name)))
      ensures messages == old(messages) && input == old(input)
      ensures isTyping == old(isTyping) && isRecording == old(isRecording)
    {
      mediaFile := Some(Attachment(ClassifyUpload(mime), data, Some(name)));
    }

    /** The composer's `onChange`: the typed text is kept. */
    method EditInput(text: string)
      modifies this
      ensures input == text
      ensures messages == old(messages) && mediaFile == old(mediaFile)
      ensures isTyping == old(isTyping) && isRecording == old(isRecording) && hasRecorder == old(hasRecorder)
    {
      input := text;
    }

    /** `startRecording` once the microphone is granted: a recorder is
        created and started. */
    method StartRecording()
      modifies this
      ensures isRecording && hasRecorder
      ensures messages == old(messages) && input == old(input) && mediaFile == old(mediaFile)
      ensures isTyping == old(isTyping)
    {
      hasRecorder := true;
      isRecording := true;
    }

    /** `stopRecording`: nothing happens until a recorder exists. Otherwise
        recording stops; a recorder that was running delivers its note, which
        (once read) becomes the pending audio attachment, while stopping one
        that is already stopped delivers nothing. */
    method StopRecording(data: string)
      modifies this
      ensures !old(hasRecorder) ==> isRecording == old(isRecording) && mediaFile == old(mediaFile)
      ensures old(hasRecorder) ==> !isRecording
      ensures old(hasRecorder) && old(isRecording) ==> mediaFile == Some(Attachment(Audio, data, Some(VOICE_NOTE_NAME)))
      ensures old(hasRecorder) && !old(isRecording) ==> mediaFile == old(mediaFile)
      ensures hasRecorder == old(hasRecorder)
      ensures messages == old(messages) && input == old(input) && isTyping == old(isTyping)
    {
      if hasRecorder {
        if isRecording {
          mediaFile := Some(Attachment(Audio, data, Some(VOICE_NOTE_NAME)));
        }
        isRecording := false;
      }
    }
  }
}
