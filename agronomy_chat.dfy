/** The agronomist chat screen: the bookmark toggle, the send guard and message built by a
    send, the quick-question chips, the welcome message and the reply handling. */
module AgronomyChat {
  import opened Wrappers
  import opened Text
  import opened Lists
  import opened Domain

  /** Adds an absent article id at the end, or removes every copy of a present one, with
      the toast that goes with each. */
  function ToggleBookmark(prev: seq<string>, id: string): (r: (seq<string>, string, ToastKind))
    ensures id in prev ==> id !in r.0 && r.1 == "Article removed from library" && r.2 == InfoToast
    ensures id !in prev ==> r.0 == prev + [id] && r.1 == "Article saved to library" && r.2 == SuccessToast
    ensures forall b :: b != id ==> (b in r.0 <==> b in prev)
  {
    if id in prev then (Toggle(prev, id), "Article removed from library", InfoToast)
    else (Toggle(prev, id), "Article saved to library", SuccessToast)
  }

  /** Saving an article and then removing it restores the library. */
  lemma ToggleBookmarkTwice(prev: seq<string>, id: string)
    requires id !in prev
    ensures ToggleBookmark(ToggleBookmark(prev, id).0, id).0 == prev
  {
    ToggleTwice(prev, id);
  }

  /** The suggested questions: Swahili and Kikuyu have their own; every other language
      gets the English ones. */
  const EnglishChips := ["Identify this pest 🐛", "How to clear aphids?", "Maize prices in Nairobi", "When will rains start?"]

  function QuickChips(lang: Language): (chips: seq<string>)
    ensures |chips| == 4
    ensures lang != Sw && lang != Ki ==> chips == EnglishChips
  {
    if lang == Sw then ["Tambua mdudu huyu 🐛", "Jinsi ya kuua vidukari?", "Bei ya Mahindi Nairobi", "Mvua itanyesha lini?"]
    else if lang == Ki then ["Ni kii giki? 🐛", "Madawa ma kii?", "Bei ya Mbembe", "Mbura ikura ri?"]
    else EnglishChips
  }

  datatype Role = User | Model

  datatype ChatMessage = ChatMessage(id: string, role: Role, text: string, image: Option<string>, timestamp: int)

  function WelcomeText(lang: Language): string
  {
    if lang == Sw then "Jambo! Mimi ni LIMA, Mshauri wako wa Kilimo na Soko. Naweza kukusaidia."
    else if lang == Ki then "Wimwega! Nnie LIMA, Mutaaramu waku wa mugunda. Nurio ki?"
    else "Jambo! I am LIMA, your Intelligent Market Agro-advisor. Ask me anything about your farm or markets."
  }

  /** When the language is set, an empty history gets the welcome message; a history with
      messages is left alone. */
  function WithWelcome(messages: seq<ChatMessage>, lang: Language, now: int): (r: seq<ChatMessage>)
    ensures messages != [] ==> r == messages
    ensures messages == [] ==> r == [ChatMessage("welcome", Model, WelcomeText(lang), None, now)]
  {
    if |messages| == 0 then [ChatMessage("welcome", Model, WelcomeText(lang), None, now)] else messages
  }

  /** The welcome message is added once: applying the rule again changes nothing. */
  lemma WelcomeOnce(messages: seq<ChatMessage>, lang: Language, lang2: Language, now: int, later: int)
    ensures |WithWelcome(messages, lang, now)| >= 1
    ensures WithWelcome(WithWelcome(messages, lang, now), lang2, later) == WithWelcome(messages, lang, now)
  {
  }

  /** The screen state a send reads and writes. */
  datatype ChatState = ChatState(messages: seq<ChatMessage>, input: string, selectedImage: Option<string>, loading: bool)

  /** JavaScript truthiness of an optional string. */
  predicate Present(s: Option<string>)
  {
    s.Some? && s.value != ""
  }

  /** The base64 payload of a data URL: the piece after its first comma (up to a second
      one), or none when the URL has no comma. */
  function ImagePayload(dataUrl: string): (payload: Option<string>)
    ensures payload.Some? <==> ',' in dataUrl
  {
    var parts := Split(dataUrl, ',');
    assert ',' in dataUrl ==> |parts| >= 2 by {
      if ',' in dataUrl { SplitWithSeparator(dataUrl, ','); }
    }
    assert ',' !in dataUrl ==> |parts| == 1 by {
      if ',' !in dataUrl { SplitNoSeparator(dataUrl, ','); }
    }
    if |parts| >= 2 then Some(parts[1]) else None
  }

  /** A URL without a comma has no payload. */
  lemma NoCommaNoPayload(dataUrl: string)
    requires ',' !in dataUrl
    ensures ImagePayload(dataUrl).None?
  {
    SplitNoSeparator(dataUrl, ',');
  }

  /** For a data URL header + "," + data with no comma in either part, the payload is
      exactly the data. */
  lemma PayloadOfDataUrl(header: string, data: string)
    requires ',' !in header && ',' !in data
    ensures ImagePayload(header + "," + data) == Some(data)
  {
    SplitAtFirst(header, data, ',');
    SplitNoSeparator(data, ',');
    assert header + "," + data == header + [','] + data;
  }

  /** What a send hands to the model: the message text and the image payload. */
  datatype Request = Request(text: string, image: Option<string>)

  function DiagnosePrompt(lang: Language): string
  {
    if lang == Sw then "Tambua shida ya mmea huu." else "Diagnose this crop issue."
  }

  /** A send is ignored while a reply is loading, or when the text is blank and no image
      is selected. */
  predicate SendBlocked(text: string, image: Option<string>, loading: bool)
  {
    (Trim(text) == "" && !Present(image)) || loading
  }

  /** A selected image lets a blank message through, and while a reply is loading nothing
      is sent, whatever the text or image. */
  lemma ImageUnblocksBlankSend(text: string, image: Option<string>, loading: bool)
    ensures Present(image) && !loading ==> !SendBlocked(text, image, loading)
    ensures loading ==> SendBlocked(text, image, loading)
    ensures !Present(image) && !loading ==> (SendBlocked(text, image, loading) <==> Trim(text) == "")
  {
  }

  /** A send: the override text when given, else the typed input. Unless blocked, it
      appends the user's message (an empty text with an image becomes the diagnose prompt),
      clears the input and the image, sets loading and returns the request. */
  function HandleSend(s: ChatState, textOverride: Option<string>, lang: Language, now: nat): (r: (ChatState, Option<Request>))
    ensures var text := if Present(textOverride) then textOverride.value else s.input;
      && (SendBlocked(text, s.selectedImage, s.loading) <==> r.1.None?)
      && (r.1.None? ==> r.0 == s)
      && (r.1.Some? ==>
            && r.1.value.text == (if text != "" then text else DiagnosePrompt(lang))
            && r.1.value.text != ""
            && r.1.value.image == (if Present(s.selectedImage) then ImagePayload(s.selectedImage.value) else None)
            && r.0 == ChatState(s.messages + [ChatMessage(Decimal(now), User, r.1.value.text,
                                                           if Present(s.selectedImage) then s.selectedImage else None, now)],
                                "", None, true))
  {
    var text := if Present(textOverride) then textOverride.value else s.input;
    if SendBlocked(text, s.selectedImage, s.loading) then (s, None)
    else
      var finalText := if text != "" then text else if Present(s.selectedImage) then DiagnosePrompt(lang) else "";
      var image := if Present(s.selectedImage) then s.selectedImage else None;
      var userMsg := ChatMessage(Decimal(now), User, finalText, image, now);
      var payload := if Present(s.selectedImage) then ImagePayload(s.selectedImage.value) else None;
      (ChatState(s.messages + [userMsg], "", None, true), Some(Request(finalText, payload)))
  }

  /** A send while loading never changes anything. */
  lemma NoSendWhileLoading(s: ChatState, textOverride: Option<string>, lang: Language, now: nat)
    requires s.loading
    ensures HandleSend(s, textOverride, lang, now) == (s, None)
  {
  }

  const ConnectionTrouble := "Pole sana (Sorry), I had trouble connecting. Please check your internet."

  /** When the call returns, the reply (or the apology when it failed) is appended and
      loading is cleared; a failure also raises an error toast. */
  function ReplyArrived(s: ChatState, reply: Result<string, string>, now: nat): (r: (ChatState, bool))
    ensures !r.0.loading && r.0.input == s.input && r.0.selectedImage == s.selectedImage
    ensures |r.0.messages| == |s.messages| + 1 && r.0.messages[..|s.messages|] == s.messages
    ensures r.0.messages[|s.messages|].role == Model
    ensures r.0.messages[|s.messages|].text == if reply.Success? then reply.value else ConnectionTrouble
    ensures r.1 <==> reply.Failure?
  {
    var msg := match reply
      case Success(t) => ChatMessage(Decimal(now + 1), Model, t, None, now)
      case Failure(_) => ChatMessage(Decimal(now), Model, ConnectionTrouble, None, now);
    assert (s.messages + [msg])[..|s.messages|] == s.messages;
    (s.(messages := s.messages + [msg], loading := false), reply.Failure?)
  }
}
