/** The dashboard's chat panel: API-key detection and masking, the message list with its single
    progress message, request routing and the attachment download. The DOM is reduced to the list of
    messages and the input's state; the fetches are an oracle reply. */
module ChatModule {
  import opened Wrappers
  import opened Text

  /** What the chat shows instead of a message typed while sensitive mode is on. */
  const ApiKeyMask := "******* [API Key] *******"
  /** The bot message shown when a send fails. */
  const SendFailed := "\U{274C} Sorry, there was an error processing your message. Please try again."
  const InvalidAttachment := "Invalid attachment data"
  /** The content type of a download whose attachment names none. */
  const SpreadsheetType := "application/vnd.openxmlformats-officedocument.spreadsheetml.sheet"

  // ---------------------------------------------------------------- API-key detection

  /** `[A-Z0-9]`. */
  predicate KeyChar(c: char) { IsUpper(c) || IsDigit(c) }

  /** At `i`: "PK" and at least sixteen characters of `[A-Z0-9]`. */
  predicate PkKeyAt(t: string, i: nat) {
    i + 18 <= |t| && t[i] == 'P' && t[i + 1] == 'K' && forall k :: i + 2 <= k < i + 18 ==> KeyChar(t[k])
  }

  /** At `i`: at least thirty-two characters of `[A-Za-z0-9]`. */
  predicate LongTokenAt(t: string, i: nat) {
    i + 32 <= |t| && forall k :: i <= k < i + 32 ==> IsAlnum(t[k])
  }

  /** What `/PK[A-Z0-9]{16,}|[A-Za-z0-9]{32,}/` looks for: one of the two patterns starting somewhere. */
  predicate HasApiKey(t: string) {
    exists i: nat :: i < |t| && (PkKeyAt(t, i) || LongTokenAt(t, i))
  }

  /** The regular expression tried at position `i`, by measuring the runs that start there. */
  predicate MatchAt(t: string, i: nat)
    requires i <= |t|
  {
    (i + 2 <= |t| && t[i] == 'P' && t[i + 1] == 'K' && RunEnd(t, i + 2, KeyChar) >= i + 18)
    || RunEnd(t, i, IsAlnum) >= i + 32
  }

  /** The regular expression tried at every position from `i` on. */
  predicate ScanFrom(t: string, i: nat)
    requires i <= |t|
    decreases |t| - i
  {
    i < |t| && (MatchAt(t, i) || ScanFrom(t, i + 1))
  }

  /** `_containsApiKey`. */
  predicate ContainsApiKey(t: string) {
    ScanFrom(t, 0)
  }

  /** Measuring the runs at `i` decides the two patterns at `i`. */
  lemma MatchAtSpec(t: string, i: nat)
    requires i < |t|
    ensures MatchAt(t, i) <==> PkKeyAt(t, i) || LongTokenAt(t, i)
  {
    if i + 2 <= |t| {
      RunEndSpec(t, i + 2, KeyChar);
    }
    RunEndSpec(t, i, IsAlnum);
  }

  lemma {:induction false} ScanFromSpec(t: string, i: nat)
    requires i <= |t|
    ensures ScanFrom(t, i) <==> exists k: nat :: i <= k < |t| && (PkKeyAt(t, k) || LongTokenAt(t, k))
    decreases |t| - i
  {
    if i < |t| {
      ScanFromSpec(t, i + 1);
      MatchAtSpec(t, i);
      if ScanFrom(t, i + 1) {
        var k: nat :| i + 1 <= k < |t| && (PkKeyAt(t, k) || LongTokenAt(t, k));
        assert i <= k;
      }
    }
  }

  /** `_containsApiKey` holds exactly when one of the two key shapes occurs somewhere in the text. */
  lemma ContainsApiKeyCorrect(t: string)
    ensures ContainsApiKey(t) <==> HasApiKey(t)
  {
    ScanFromSpec(t, 0);
  }

  // ---------------------------------------------------------------- bot text

  /** What one character of bot text becomes in the markup. */
  function Piece(c: char): string {
    if c == '\n' then "<br>" else [c]
  }

  function Concat(pieces: seq<string>): string {
    if pieces == [] then [] else pieces[0] + Concat(pieces[1..])
  }

  /** `text.replace(/\n/g, '<br>')` (the bullet replacement before it maps '•' to itself). */
  function NewlinesToBr(s: string): string {
    Concat(seq(|s|, i requires 0 <= i < |s| => Piece(s[i])))
  }

  lemma NewlinesToBrStep(s: string)
    requires s != []
    ensures NewlinesToBr(s) == Piece(s[0]) + NewlinesToBr(s[1..])
  {
    var pieces := seq(|s|, i requires 0 <= i < |s| => Piece(s[i]));
    assert pieces[1..] == seq(|s| - 1, i requires 0 <= i < |s| - 1 => Piece(s[1..][i]));
  }

  /** The markup has no line breaks left, and has a '<' only where the text had a '<' or a line break. */
  lemma {:induction false} MarkupChars(s: string)
    ensures '\n' !in NewlinesToBr(s)
    ensures ('<' in NewlinesToBr(s)) <==> ('<' in s || '\n' in s)
  {
    if s != [] {
      NewlinesToBrStep(s);
      MarkupChars(s[1..]);
      assert s == [s[0]] + s[1..];
    }
  }

  /** Reads every `<br>` back as a newline. */
  function BrToNewlines(s: string): string {
    if s == [] then []
    else if |s| >= 4 && s[..4] == "<br>" then "\n" + BrToNewlines(s[4..])
    else [s[0]] + BrToNewlines(s[1..])
  }

  /** A text without markup survives the conversion: nothing is lost but the line breaks' spelling. */
  lemma {:induction false} NewlinesRoundTrip(s: string)
    requires '<' !in s
    ensures BrToNewlines(NewlinesToBr(s)) == s
  {
    if s != [] {
      NewlinesRoundTrip(s[1..]);
      NewlinesToBrStep(s);
      var rest := NewlinesToBr(s[1..]);
      if s[0] == '\n' {
        assert ("<br>" + rest)[..4] == "<br>" && ("<br>" + rest)[4..] == rest;
      } else {
        assert ([s[0]] + rest)[1..] == rest;
      }
      assert s == [s[0]] + s[1..];
    }
  }

  // ---------------------------------------------------------------- the message list

  /** One element of the chat list; `progress` marks a bot progress message. */
  datatype Message = Message(fromBot: bool, progress: bool, html: string)

  /** The progress message, if any, is the one `_lastProgressMessage` refers to. */
  predicate ProgressTracked(ms: seq<Message>, last: Option<nat>) {
    (last.Some? ==> last.value < |ms| && ms[last.value].progress)
    && forall i :: 0 <= i < |ms| && ms[i].progress ==> last == Some(i)
  }

  function ProgressCount(ms: seq<Message>): nat {
    if ms == [] then 0 else ProgressCount(ms[..|ms| - 1]) + (if ms[|ms| - 1].progress then 1 else 0)
  }

  lemma {:induction false} NoProgressCount(ms: seq<Message>)
    requires forall i :: 0 <= i < |ms| ==> !ms[i].progress
    ensures ProgressCount(ms) == 0
  {
    if ms != [] {
      NoProgressCount(ms[..|ms| - 1]);
    }
  }

  /** A tracked list holds at most one progress message, and one exactly when it is tracked. */
  lemma {:induction false} AtMostOneProgress(ms: seq<Message>, last: Option<nat>)
    requires ProgressTracked(ms, last)
    ensures ProgressCount(ms) <= 1
    ensures ProgressCount(ms) == 1 <==> last.Some?
  {
    if ms != [] {
      var init := ms[..|ms| - 1];
      if ms[|ms| - 1].progress {
        NoProgressCount(init);
      } else {
        AtMostOneProgress(init, last);
      }
    }
  }

  /** The list once the message at `k`, if any, is removed. */
  function Without(ms: seq<Message>, k: Option<nat>): (r: seq<Message>)
    ensures k.Some? && k.value < |ms| ==> |r| == |ms| - 1
    ensures (k.None? || k.value >= |ms|) ==> r == ms
  {
    if k.Some? && k.value < |ms| then ms[..k.value] + ms[k.value + 1..] else ms
  }

  /** Removing the tracked progress message leaves none. */
  lemma WithoutProgress(ms: seq<Message>, last: Option<nat>)
    requires ProgressTracked(ms, last)
    ensures forall i :: 0 <= i < |Without(ms, last)| ==> !Without(ms, last)[i].progress
  {
    var r := Without(ms, last);
    if last.Some? {
      var k := last.value;
      forall i | 0 <= i < |r|
        ensures !r[i].progress
      {
        if i < k {
          assert r[i] == ms[i];
        } else {
          assert r[i] == ms[i + 1];
        }
      }
    }
  }

  /** Removing the tracked progress message keeps every other message. */
  lemma WithoutKeepsSettled(ms: seq<Message>, last: Option<nat>)
    requires ProgressTracked(ms, last)
    ensures forall m :: m in ms && !m.progress ==> m in Without(ms, last)
  {
    if last.Some? {
      var k := last.value;
      forall m | m in ms && !m.progress
        ensures m in Without(ms, last)
      {
        var i :| 0 <= i < |ms| && ms[i] == m;
        if i < k {
          assert Without(ms, last)[i] == m;
        } else {
          assert i != k;
          assert Without(ms, last)[i - 1] == m;
        }
      }
    }
  }

  /** The request `sendMessage` makes: the performance endpoint, without a body, for the message
      'portfolio-performance'; the chat endpoint with the message for every other one. */
  datatype Request = Request(url: string, body: Option<string>)

  function Endpoint(message: string): (r: Request)
    ensures r.url == "/api/portfolio/performance" <==> message == "portfolio-performance"
    ensures r.url == "/api/portfolio/performance" || r.url == "/chat"
    ensures r.body.None? <==> message == "portfolio-performance"
    ensures r.body.Some? ==> r.body.value == message
  {
    if message == "portfolio-performance" then Request("/api/portfolio/performance", None)
    else Request("/chat", Some(message))
  }

  /** What a send shows in the list for the user's message. */
  function DisplayText(message: string, sensitive: bool): (r: string)
    ensures sensitive ==> r == ApiKeyMask
    ensures !sensitive ==> r == message
  {
    if sensitive then ApiKeyMask else message
  }

  /** The outcome of a request. `Failure`: the fetch threw, the status was not ok or the body was not
      JSON. `ErrorReply`: the body's `error` is set. `Answer`: otherwise; `response` is "" when the body
      has none. */
  datatype Reply =
    | Failure
    | ErrorReply(error: string)
    | Answer(response: string, inProgress: bool, progressMessages: seq<string>)

  /** The markup of the last message a reply leaves in the list. */
  function ReplyHtml(reply: Reply): string {
    match reply
    case Failure => NewlinesToBr(SendFailed)
    case ErrorReply(error) => NewlinesToBr("\U{274C} Error: " + error)
    case Answer(response, _, _) => NewlinesToBr(response)
  }

  /** The last message a reply leaves in the list. */
  function ReplyMessage(reply: Reply): (m: Message)
    ensures m.fromBot && (m.progress <==> reply.Answer? && reply.inProgress)
  {
    Message(true, reply.Answer? && reply.inProgress, ReplyHtml(reply))
  }

  /** Every reply but an answer without a response leaves a message in the list. */
  predicate Shows(reply: Reply) {
    reply.Failure? || reply.ErrorReply? || reply.response != []
  }

  /** The list after a send from `ms`, whose progress message is `last`: the user's message is appended; then,
      when the reply shows something, the old progress message is removed and the reply's message appended. */
  function AfterSend(ms: seq<Message>, last: Option<nat>, user: Message, reply: Reply): seq<Message> {
    if Shows(reply) then Without(ms, last) + [user, ReplyMessage(reply)] else ms + [user]
  }

  /** Removing a message of `ms` commutes with appending after it. */
  lemma WithoutAppend(ms: seq<Message>, last: Option<nat>, m: Message)
    requires last.None? || last.value < |ms|
    ensures Without(ms + [m], last) == Without(ms, last) + [m]
  {
    if last.Some? {
      var k := last.value;
      assert (ms + [m])[..k] == ms[..k];
      assert (ms + [m])[k + 1..] == ms[k + 1..] + [m];
    }
  }

  /** Removing the message just appended, when it is the tracked one, gives back the list it was appended to. */
  lemma WithoutLast(ms: seq<Message>, m: Message)
    ensures Without(ms + [m], Some(|ms|)) == ms
  {
    assert (ms + [m])[..|ms|] == ms;
  }

  class ChatPanel {
    /** Whether the `chat-messages` container exists. */
    const hasContainer: bool
    var inputValue: string
    var sensitiveInputMode: bool
    var inputType: string
    /** The chat list, typing indicator left out. */
    var messages: seq<Message>
    /** `_lastProgressMessage`, as an index into `messages`. */
    var lastProgress: Option<nat>
    var typingShown: bool
    /** The requests sent so far. */
    var requests: seq<Request>

    predicate Valid()
      reads this
    {
      ProgressTracked(messages, lastProgress)
      && (inputType == "password" <==> sensitiveInputMode)
      && (inputType == "password" || inputType == "text")
    }

    constructor(hasContainer: bool)
      ensures Valid() && this.hasContainer == hasContainer
      ensures messages == [] && requests == [] && inputValue == [] && !sensitiveInputMode && !typingShown
    {
      this.hasContainer := hasContainer;
      inputValue := [];
      sensitiveInputMode := false;
      inputType := "text";
      messages := [];
      lastProgress := None;
      typingShown := false;
      requests := [];
    }

    /** The input listener: sensitive mode (and the password input type) follow `_containsApiKey`. */
    method OnInput(value: string)
      requires Valid()
      modifies this
      ensures Valid()
      ensures inputValue == value && sensitiveInputMode == ContainsApiKey(value)
      ensures messages == old(messages) && lastProgress == old(lastProgress)
      ensures typingShown == old(typingShown) && requests == old(requests)
    {
      inputValue := value;
      if ContainsApiKey(value) {
        sensitiveInputMode := true;
        inputType := "password";
      } else {
        sensitiveInputMode := false;
        inputType := "text";
      }
    }

    /** `addUserMessage`: appends the text as a user message. */
    method AddUserMessage(text: string)
      requires Valid()
      modifies this
      ensures Valid()
      ensures messages == if hasContainer then old(messages) + [Message(false, false, text)] else old(messages)
      ensures lastProgress == old(lastProgress) && typingShown == old(typingShown) && requests == old(requests)
      ensures inputValue == old(inputValue) && sensitiveInputMode == old(sensitiveInputMode) && inputType == old(inputType)
    {
      if !hasContainer {
        return;
      }
      messages := messages + [Message(false, false, text)];
    }

    /** `addBotMessage`: removes the previous progress message, then appends the text with its line
        breaks as `<br>`, and remembers it when it is a progress message. */
    method AddBotMessage(text: string, isProgress: bool)
      requires Valid()
      modifies this
      ensures Valid()
      ensures hasContainer ==>
        messages == Without(old(messages), old(lastProgress)) + [Message(true, isProgress, NewlinesToBr(text))]
        && lastProgress == (if isProgress then Some(|messages| - 1) else None)
      ensures !hasContainer ==> messages == old(messages) && lastProgress == old(lastProgress)
      ensures forall m :: m in old(messages) && !m.progress ==> m in messages
      ensures typingShown == old(typingShown) && requests == old(requests)
      ensures inputValue == old(inputValue) && sensitiveInputMode == old(sensitiveInputMode) && inputType == old(inputType)
    {
      if !hasContainer {
        return;
      }
      WithoutProgress(messages, lastProgress);
      WithoutKeepsSettled(messages, lastProgress);
      messages := Without(messages, lastProgress);
      lastProgress := None;
      messages := messages + [Message(true, isProgress, NewlinesToBr(text))];
      if isProgress {
        lastProgress := Some(|messages| - 1);
      }
    }

    /** `sendMessage`: shows the user's message (masked in sensitive mode), shows the typing indicator,
        sends the unmasked message to its endpoint and shows the reply. */
    method SendMessage(message: string, reply: Reply)
      requires Valid()
      modifies this
      ensures Valid()
      ensures !hasContainer ==> unchanged(this)
      ensures hasContainer ==> requests == old(requests) + [Endpoint(message)]
      ensures hasContainer ==>
        messages == AfterSend(old(messages), old(lastProgress),
                              Message(false, false, DisplayText(message, old(sensitiveInputMode))), reply)
      ensures hasContainer ==>
        lastProgress == if !Shows(reply) then old(lastProgress)
                        else if ReplyMessage(reply).progress then Some(|messages| - 1) else None
      ensures forall m :: m in old(messages) && !m.progress ==> m in messages
      ensures hasContainer ==> Message(false, false, DisplayText(message, old(sensitiveInputMode))) in messages
      ensures hasContainer ==> sensitiveInputMode == (old(sensitiveInputMode) && !reply.Answer?)
      ensures hasContainer ==> typingShown == (reply.Answer? && (reply.response == [] || reply.inProgress))
      ensures hasContainer && (reply.Failure? || reply.ErrorReply? || reply.response != []) ==>
        |messages| > 0 && messages[|messages| - 1] == ReplyMessage(reply)
      ensures inputValue == old(inputValue)
    {
      if !hasContainer {
        return;
      }
      var user := Message(false, false, DisplayText(message, sensitiveInputMode));
      WithoutAppend(messages, lastProgress, user);
      AddUserMessage(DisplayText(message, sensitiveInputMode));
      typingShown := true;
      requests := requests + [Endpoint(message)];
      ShowReply(reply);
    }

    /** The reply part of `sendMessage`. Sensitive mode is switched off only when an answer arrives; a
        failure or an error reply leaves it on. */
    method ShowReply(reply: Reply)
      requires Valid() && hasContainer && typingShown
      modifies this
      ensures Valid()
      ensures requests == old(requests) && inputValue == old(inputValue)
      ensures forall m :: m in old(messages) && !m.progress ==> m in messages
      ensures sensitiveInputMode == (old(sensitiveInputMode) && !reply.Answer?)
      ensures typingShown == (reply.Answer? && (reply.response == [] || reply.inProgress))
      ensures (reply.Failure? || reply.ErrorReply? || reply.response != []) ==>
        |messages| > 0 && messages[|messages| - 1] == ReplyMessage(reply)
      ensures Shows(reply) ==>
        messages == Without(old(messages), old(lastProgress)) + [ReplyMessage(reply)]
        && lastProgress == (if ReplyMessage(reply).progress then Some(|messages| - 1) else None)
      ensures !Shows(reply) ==> messages == old(messages) && lastProgress == old(lastProgress)
    {
      match reply {
        case Failure =>
          typingShown := false;
          AddBotMessage(SendFailed, false);

        case ErrorReply(error) =>
          typingShown := false;
          AddBotMessage("\U{274C} Error: " + error, false);
        case Answer(response, inProgress, progressMessages) =>
          ShowAnswer(response, inProgress, progressMessages);
          if sensitiveInputMode {
            sensitiveInputMode := false;
            inputType := "text";
          }
      }
    }

    /** The answer part of `sendMessage`: a progress answer is shown as the progress message and the
        typing indicator stays; a final answer is preceded by its progress messages, each replacing the
        one before, and hides the indicator. An answer without a response shows nothing. */
    method ShowAnswer(response: string, inProgress: bool, progressMessages: seq<string>)
      requires Valid() && hasContainer && typingShown
      modifies this
      ensures Valid()
      ensures requests == old(requests) && inputValue == old(inputValue)
      ensures sensitiveInputMode == old(sensitiveInputMode) && inputType == old(inputType)
      ensures forall m :: m in old(messages) && !m.progress ==> m in messages
      ensures typingShown == (response == [] || inProgress)
      ensures response == [] ==> messages == old(messages) && lastProgress == old(lastProgress)
      ensures response != [] ==>
        messages == Without(old(messages), old(lastProgress)) + [Message(true, inProgress, NewlinesToBr(response))]
        && lastProgress == (if inProgress then Some(|messages| - 1) else None)
      ensures response != [] ==> |messages| > 0 && messages[|messages| - 1] == Message(true, inProgress, NewlinesToBr(response))
    {
      if response == [] {
        return;
      }
      if inProgress {
        AddBotMessage(response, true);
        return;
      }
      for i := 0 to |progressMessages|
        invariant Valid() && typingShown
        invariant requests == old(requests) && inputValue == old(inputValue)
        invariant sensitiveInputMode == old(sensitiveInputMode) && inputType == old(inputType)
        invariant forall m :: m in old(messages) && !m.progress ==> m in messages
        invariant Without(messages, lastProgress) == Without(old(messages), old(lastProgress))
      {
        AddBotMessage(progressMessages[i], true);
        WithoutLast(messages[..|messages| - 1], messages[|messages| - 1]);
        assert messages[..|messages| - 1] + [messages[|messages| - 1]] == messages;
      }
      typingShown := false;
      AddBotMessage(response, false);
    }

    /** The Enter key and the send button: a message that is blank once trimmed is ignored; otherwise
        the trimmed text is sent and the input cleared. */
    method Submit(reply: Reply)
      requires Valid()
      modifies this
      ensures Valid()
      ensures Strip(old(inputValue), IsJsSpace) == [] ==> unchanged(this)
      ensures Strip(old(inputValue), IsJsSpace) != [] ==> inputValue == []
      ensures Strip(old(inputValue), IsJsSpace) != [] && hasContainer ==> requests == old(requests) + [Endpoint(Strip(old(inputValue), IsJsSpace))]
      ensures Strip(old(inputValue), IsJsSpace) != [] && hasContainer ==>
        messages == AfterSend(old(messages), old(lastProgress),
                              Message(false, false, DisplayText(Strip(old(inputValue), IsJsSpace), old(sensitiveInputMode))),
                              reply)
      ensures Strip(old(inputValue), IsJsSpace) != [] && hasContainer ==>
        && lastProgress == (if !Shows(reply) then old(lastProgress)
                            else if ReplyMessage(reply).progress then Some(|messages| - 1) else None)
        && sensitiveInputMode == (old(sensitiveInputMode) && !reply.Answer?)
        && inputType == (if sensitiveInputMode then "password" else "text")
        && typingShown == (reply.Answer? && (reply.response == [] || reply.inProgress))
      ensures !hasContainer ==>
        && requests == old(requests) && messages == old(messages) && lastProgress == old(lastProgress)
        && sensitiveInputMode == old(sensitiveInputMode) && inputType == old(inputType) && typingShown == old(typingShown)
    {
      var text := Strip(inputValue, IsJsSpace);
      if text == [] {
        return;
      }
      SendMessage(text, reply);
      inputValue := [];
    }
  }

  // ---------------------------------------------------------------- attachment download

  /** The attachment of a reply; a field is "" when missing. */
  datatype Attachment = Attachment(data: string, filename: string, contentType: string)

  /** The file the browser is asked to save. */
  datatype Download = Download(bytes: seq<int>, contentType: string, filename: string)

  /** `new Uint8Array(numbers)`: each number taken modulo 256. */
  function ToUint8(numbers: seq<int>): (r: seq<int>)
    ensures |r| == |numbers|
    ensures forall i :: 0 <= i < |numbers| ==> 0 <= r[i] < 256 && r[i] % 256 == numbers[i] % 256
  {
    seq(|numbers|, i requires 0 <= i < |numbers| => numbers[i] % 256)
  }

  /** `downloadAttachment`: fails with 'Invalid attachment data' when the attachment, its data or its
      filename is missing, and with the decoder's error when the data is not base64; otherwise the
      decoded characters' codes, as bytes, under the attachment's content type or the spreadsheet type. */
  method DownloadAttachment(attachment: Option<Attachment>, atob: string -> Result<string>) returns (r: Result<Download>)
    ensures (attachment.None? || attachment.value.data == [] || attachment.value.filename == []) ==>
      r == Err(InvalidAttachment)
    ensures attachment.Some? && attachment.value.data != [] && attachment.value.filename != [] ==>
      ((r.Err? <==> atob(attachment.value.data).Err?)
       && (r.Err? ==> r.message == atob(attachment.value.data).message))
    ensures r.Ok? ==>
      var decoded := atob(attachment.value.data).value;
      && r.value.filename == attachment.value.filename
      && r.value.contentType == (if attachment.value.contentType != [] then attachment.value.contentType else SpreadsheetType)
      && |r.value.bytes| == |decoded|
      && forall i :: 0 <= i < |decoded| ==> r.value.bytes[i] == (decoded[i] as int) % 256
  {
    if attachment.None? || attachment.value.data == [] || attachment.value.filename == [] {
      return Err(InvalidAttachment);
    }
    var a := attachment.value;
    var byteCharacters :- atob(a.data);
    var byteNumbers := new int[|byteCharacters|];
    for i := 0 to |byteCharacters|
      invariant forall k :: 0 <= k < i ==> byteNumbers[k] == byteCharacters[k] as int
    {
      byteNumbers[i] := byteCharacters[i] as int;
    }
    var contentType := if a.contentType != [] then a.contentType else SpreadsheetType;
    return Ok(Download(ToUint8(byteNumbers[..]), contentType, a.filename));
  }
}
