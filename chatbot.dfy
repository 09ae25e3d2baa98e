/** The conversation service: a bounded history that always starts with the system prompt,
    the greeting turn, one model call per turn, and the helpers that find and remove a fenced JSON block. */
module Chatbot {
  import opened Wrappers
  import opened Text
  import Models

  datatype Role = System | User | Assistant
  datatype Entry = Entry(role: Role, content: string)

  const SystemPrompt: string :=
    "You are an AI financial assistant helping users manage their investment portfolio.\n"
    + "                You can help with portfolio analysis, market trends, and trading strategies.\n"
    + "                Be professional but friendly, and always provide clear, actionable insights.\n"
    + "                If you don't know something, admit it and suggest alternatives.\n"
    + "                Keep responses concise but informative."
  const InitialEntry: Entry := Entry(System, SystemPrompt)

  /** The history is cut back once it holds more than `HistoryLimit` entries ... */
  const HistoryLimit: nat := 10
  /** ... to the first entry and the `KeptRecent` most recent ones. */
  const KeptRecent: nat := 9

  const InitSentinel: string := "__init__"

  const GreetingWithCredentials: string :=
    "\U{1F44B} Hello! I'm your AI financial assistant. I see you already have your Alpaca credentials set up - that's great! "
    + "I can help you with:\n"
    + "\U{2022} Checking your portfolio value and positions\n"
    + "\U{2022} Viewing your recent trades\n"
    + "\U{2022} Analyzing market trends\n"
    + "\U{2022} Getting stock information\n\n"
    + "What would you like to know about?"
  const GreetingWithoutCredentials: string :=
    "\U{1F44B} Hello! I'm your AI financial assistant. I can help you manage your portfolio and provide market insights.\n\n"
    + "I notice you haven't set up your Alpaca trading account credentials yet. Would you like to set them up now? "
    + "This will allow me to help you with:\n"
    + "\U{2022} Real-time portfolio tracking\n"
    + "\U{2022} Trade monitoring\n"
    + "\U{2022} Market analysis\n"
    + "\U{2022} Stock information\n\n"
    + "Just let me know if you'd like to proceed with setting up your credentials!"

  const ContextWithCredentials: string :=
    "The user has Alpaca trading account credentials set up and can perform portfolio operations."
  const ContextWithoutCredentials: string :=
    "The user has not set up their Alpaca trading account credentials yet."

  const ApologyText: string := "I apologize, but I encountered an error. Please try again."

  /** The dict `process_message` returns: `response`, `requires_action` and, on failure, `error: True`. */
  datatype Response = Response(response: string, requiresAction: bool, error: bool)

  const ApologyResponse: Response := Response(ApologyText, false, true)

  /** `get_greeting`: chosen by the user's credential status alone; with no user the call raises. */
  function GetGreeting(user: Models.User?): (r: Result<string>)
    reads user
    ensures user == null <==> r.Err?
    ensures user != null && user.HasAlpacaCredentials() ==> r == Ok(GreetingWithCredentials)
    ensures user != null && !user.HasAlpacaCredentials() ==> r == Ok(GreetingWithoutCredentials)
  {
    if user == null then Err("'NoneType' object has no attribute 'has_alpaca_credentials'")
    else if user.HasAlpacaCredentials() then Ok(GreetingWithCredentials)
    else Ok(GreetingWithoutCredentials)
  }

  /** The system context added before each user turn. */
  function ContextFor(user: Models.User?): (r: string)
    reads user
    ensures r == ContextWithCredentials <==> user != null && user.HasAlpacaCredentials()
  {
    if user != null && user.HasAlpacaCredentials() then ContextWithCredentials else ContextWithoutCredentials
  }

  predicate IsSuffix<T(==)>(s: seq<T>, t: seq<T>) {
    |s| <= |t| && s == t[|t| - |s|..]
  }

  /** The cut applied after each successful turn: the first entry survives, the oldest of the others are
      evicted first, and nothing is evicted while the history is within the limit. */
  function Truncate(h: seq<Entry>): (r: seq<Entry>)
    requires |h| >= 1
    ensures |r| == if |h| > HistoryLimit then HistoryLimit else |h|
    ensures r[0] == h[0]
    ensures IsSuffix(r[1..], h[1..])
  {
    if |h| > HistoryLimit then [h[0]] + h[|h| - KeptRecent..] else h
  }

  /** After a turn's three entries are added and the history is cut, those three are its last entries. */
  lemma TruncateKeepsLatestExchange(h: seq<Entry>, context: Entry, user: Entry, reply: Entry)
    requires |h| >= 1
    ensures var r := Truncate(h + [context, user, reply]);
      |r| >= 4 && r[|r| - 3..] == [context, user, reply]
  {
    var full := h + [context, user, reply];
    var r := Truncate(full);
    assert full[|full| - 3..] == [context, user, reply];
    assert r[1..] == full[|full| - (|r| - 1)..];
    assert r[|r| - 3..] == r[1..][|r| - 4..];
  }

  class ChatbotService {
    var conversationHistory: seq<Entry>
    var greeted: bool

    /** The history is never empty and its first entry is always the system prompt. */
    ghost predicate Valid()
      reads this
    {
      |conversationHistory| >= 1 && conversationHistory[0] == InitialEntry
    }

    constructor ()
      ensures Valid()
      ensures conversationHistory == [InitialEntry] && !greeted
    {
      conversationHistory := [InitialEntry];
      greeted := false;
    }

    /** `process_message`. `model` is the chat-completion call: given the history it is sent, it yields the
        reply text or fails (`None`). Entries added before a failure stay in the history. */
    method ProcessMessage(userMessage: string, user: Models.User?, model: seq<Entry> -> Option<string>)
      returns (r: Response)
      requires Valid()
      modifies this
      ensures Valid()
      ensures userMessage == InitSentinel ==>
        && greeted
        && conversationHistory == old(conversationHistory)
        && r == match GetGreeting(user)
                case Ok(g) => Response(g, false, false)
                case Err(_) => ApologyResponse
      ensures userMessage != InitSentinel ==>
        && greeted == old(greeted)
        && var sent := old(conversationHistory) + [Entry(System, ContextFor(user)), Entry(User, userMessage)];
           match model(sent)
           case None =>
             conversationHistory == sent && r == ApologyResponse
           case Some(reply) =>
             && conversationHistory == Truncate(sent + [Entry(Assistant, reply)])
             && |conversationHistory| <= HistoryLimit
             && r == Response(reply, false, false)
    {
      if userMessage == InitSentinel {
        greeted := true;
        var greeting := GetGreeting(user);
        if greeting.Err? {
          return ApologyResponse;
        }
        return Response(greeting.value, false, false);
      }
      var context := ContextFor(user);
      conversationHistory := conversationHistory + [Entry(System, context)];
      conversationHistory := conversationHistory + [Entry(User, userMessage)];
      assert conversationHistory == old(conversationHistory) + [Entry(System, context), Entry(User, userMessage)];
      var completion := model(conversationHistory);
      if completion.None? {
        return ApologyResponse;
      }
      var botResponse := completion.value;
      conversationHistory := conversationHistory + [Entry(Assistant, botResponse)];
      if |conversationHistory| > HistoryLimit {
        conversationHistory := [conversationHistory[0]] + conversationHistory[|conversationHistory| - KeptRecent..];
      }
      r := Response(botResponse, false, false);
    }

    /** `clear_history`: only the system prompt is left, and the greeting will be given again. */
    method ClearHistory()
      requires Valid()
      modifies this
      ensures Valid()
      ensures conversationHistory == [old(conversationHistory)[0]] && |conversationHistory| == 1
      ensures !greeted
    {
      conversationHistory := [conversationHistory[0]];
      greeted := false;
    }
  }

  const JsonFence: string := "```json"
  const Fence: string := "```"

  /** `_extract_visual_data`. `parse` is `json.loads` (`None` where it raises): it is given the text after the
      first "```json", cut first at the next "```json" and then at the first fence in what is left. */
  function ExtractVisualData<T>(message: string, parse: string -> Option<T>): (r: Option<T>)
    ensures !Contains(message, JsonFence) ==> r == None
    ensures Contains(message, JsonFence) ==>
      exists block ::
        && r == parse(block)
        && block <= AfterFirst(message, JsonFence).value
        && !Contains(block, Fence)
        && (block == AfterFirst(message, JsonFence).value || Fence <= AfterFirst(message, JsonFence).value[|block|..])
    ensures Contains(message, JsonFence) ==>
      exists u, block ::
        && r == parse(block)
        && IsFirstCut(AfterFirst(message, JsonFence).value, JsonFence, u)
        && IsFirstCut(u, Fence, block)
  {
    JsonFenceHasFence(message);
    if Contains(message, JsonFence) && Contains(message, Fence) then
      var afterOpen := AfterFirst(message, JsonFence).value;
      FirstBlockEndsAtFence(afterOpen);
      parse(BeforeFirst(BeforeFirst(afterOpen, JsonFence), Fence))
    else
      None
  }

  /** The block read after the opening fence is the text cut at the next "```json" and then at the first fence;
      it holds no fence and runs to a fence or to the end. */
  lemma FirstBlockEndsAtFence(a: string)
    ensures var u := BeforeFirst(a, JsonFence);
      && IsFirstCut(a, JsonFence, u)
      && IsFirstCut(u, Fence, BeforeFirst(u, Fence))
    ensures var block := BeforeFirst(BeforeFirst(a, JsonFence), Fence);
      && block <= a && !Contains(block, Fence)
      && (block == a || Fence <= a[|block|..])
  {
    var u := BeforeFirst(a, JsonFence);
    BeforeFirstIsFirstCut(a, JsonFence);
    BeforeFirstIsFirstCut(u, Fence);
    BeforeFirstIsFree(u, Fence);
    FenceFollowsCuts(a, u, BeforeFirst(u, Fence));
  }

  /** Cut at the next "```json" and then at the first fence, the text is either used up or continues with a
      fence: the closing one, or the three backticks that open the next "```json". */
  lemma FenceFollowsCuts(a: string, u: string, block: string)
    requires IsFirstCut(a, JsonFence, u) && IsFirstCut(u, Fence, block)
    ensures block == a || Fence <= a[|block|..]
  {
    if block != u {
      assert u[|block|..|block| + |Fence|] == Fence;
      assert a[|block|..][..|Fence|] == u[|block|..|block| + |Fence|];
    } else if u != a {
      assert a[|u|..|u| + |JsonFence|] == JsonFence;
      assert a[|u|..][..|Fence|] == JsonFence[..|Fence|];
    }
  }

  /** The text before the first `p` is a prefix of `s` that holds no `p`. */
  lemma BeforeFirstIsFree(s: string, p: string)
    requires |p| > 0
    ensures BeforeFirst(s, p) <= s && !Contains(BeforeFirst(s, p), p)
  {
    var b := BeforeFirst(s, p);
    forall j | 0 <= j
      ensures !OccursAt(b, p, j)
    {
      if j + |p| <= |b| {
        assert b == s[..|b|];
        assert forall k :: j <= k < j + |p| ==> b[k] == s[k];
        assert s[j..j + |p|] == b[j..j + |p|];
        match IndexOf(s, p)
        case None =>
          assert !OccursAt(s, p, j);
        case Some(i) =>
          assert |b| == i && !OccursAt(s, p, j);
      }
    }
  }

  /** `_clean_message`: the text before the first "```json" joined to the text after that block's closing fence
      (up to any second "```json"), stripped. Raises (`Err`) when no closing fence follows. */
  function CleanMessage(message: string): (r: Result<string>)
    ensures !Contains(message, JsonFence) ==> r == Ok(Strip(message, IsSpace))
    ensures Contains(message, JsonFence) && r.Ok? ==>
      exists tail :: r == Ok(Strip(BeforeFirst(message, JsonFence) + tail, IsSpace))
  {
    JsonFenceHasFence(message);
    if Contains(message, JsonFence) && Contains(message, Fence) then
      var before := BeforeFirst(message, JsonFence);
      var block := BeforeFirst(AfterFirst(message, JsonFence).value, JsonFence);
      match AfterFirst(block, Fence)
      case None => Err("list index out of range")
      case Some(tail) => Ok(Strip(before + tail, IsSpace))
    else
      Ok(Strip(message, IsSpace))
  }

  /** Text after a fence that neither contains a backtick nor starts with "json". */
  predicate PlainTail(c: string) {
    '`' !in c && !(|c| >= 4 && c[..4] == "json")
  }

  /** A backtick-free prefix `b` hides no occurrence of a pattern that starts with a backtick. */
  lemma NoOccurrenceInFreePrefix(s: string, b: string, p: string, k: int)
    requires |b| <= |s| && s[..|b|] == b && '`' !in b
    requires |p| > 0 && p[0] == '`' && 0 <= k < |b|
    ensures !OccursAt(s, p, k)
  {
    assert s[k] == b[k];
    if k + |p| <= |s| {
      assert s[k..k + |p|][0] == s[k];
    }
  }

  /** In `b + "```" + c` with backtick-free `b` and a plain tail `c`, there is no "```json". */
  lemma NoSecondJsonFence(b: string, c: string)
    requires '`' !in b && PlainTail(c)
    ensures !Contains(b + Fence + c, JsonFence)
  {
    var s := b + Fence + c;
    assert s[..|b|] == b;
    forall k | 0 <= k
      ensures !OccursAt(s, JsonFence, k)
    {
      if k < |b| {
        NoOccurrenceInFreePrefix(s, b, JsonFence, k);
      } else if k + 7 <= |s| {
        var w := s[k..k + 7];
        if k == |b| {
          assert s[|b| + 3..] == c;
          assert w[3..7] == s[|b| + 3..|b| + 7] == c[..4];
          assert w[3..7] != JsonFence[3..7];
        } else if k <= |b| + 2 {
          assert w[|b| + 3 - k] == c[0];
          assert JsonFence[|b| + 3 - k] == '`';
        } else {
          assert w[0] == c[k - |b| - 3];
        }
      }
    }
  }

  /** Every "```json" holds a "```". */
  lemma JsonFenceHasFence(s: string)
    ensures Contains(s, JsonFence) ==> Contains(s, Fence)
  {
    if Contains(s, JsonFence) {
      var i := IndexOf(s, JsonFence).value;
      assert s[i..i + 3] == s[i..i + 7][..3];
      IndexOfAtMost(s, Fence, i);
    }
  }

  /** How the split calls decompose a message holding one JSON block. */
  lemma SingleBlockParts(a: string, b: string, c: string)
    requires '`' !in a && '`' !in b && PlainTail(c)
    ensures var m := a + JsonFence + b + Fence + c;
      && Contains(m, JsonFence) && Contains(m, Fence)
      && BeforeFirst(m, JsonFence) == a
      && AfterFirst(m, JsonFence) == Some(b + Fence + c)
      && BeforeFirst(b + Fence + c, JsonFence) == b + Fence + c
      && BeforeFirst(b + Fence + c, Fence) == b
      && AfterFirst(b + Fence + c, Fence) == Some(c)
  {
    var m := a + JsonFence + b + Fence + c;
    var rest := b + Fence + c;
    assert m == a + JsonFence + rest;
    IndexOfAfterFreePrefix(a, JsonFence, rest);
    assert m[..|a|] == a;
    assert m[|a| + |JsonFence|..] == rest;
    JsonFenceHasFence(m);
    NoSecondJsonFence(b, c);
    IndexOfAfterFreePrefix(b, Fence, c);
    assert rest[..|b|] == b;
    assert rest[|b| + |Fence|..] == c;
  }

  /** A message holding one JSON block, with backtick-free text around it: the block is what is parsed. */
  lemma {:induction false} ExtractSingleBlock<T>(a: string, b: string, c: string, parse: string -> Option<T>)
    requires '`' !in a && '`' !in b && PlainTail(c)
    ensures ExtractVisualData(a + JsonFence + b + Fence + c, parse) == parse(b)
  {
    SingleBlockParts(a, b, c);
  }

  /** The same message is cleaned to the surrounding text: the block and its fences are gone. */
  lemma {:induction false} CleanSingleBlock(a: string, b: string, c: string)
    requires '`' !in a && '`' !in b && PlainTail(c)
    ensures CleanMessage(a + JsonFence + b + Fence + c) == Ok(Strip(a + c, IsSpace))
  {
    SingleBlockParts(a, b, c);
  }

  /** A "```json" block that is never closed makes `_clean_message` raise. */
  lemma {:induction false} CleanUnclosedBlock(a: string, b: string)
    requires '`' !in a && '`' !in b
    ensures CleanMessage(a + JsonFence + b).Err?
  {
    var m := a + JsonFence + b;
    IndexOfAfterFreePrefix(a, JsonFence, b);
    assert m[|a| + |JsonFence|..] == b;
    JsonFenceHasFence(m);
    assert b[..|b|] == b;
    forall k | 0 <= k
      ensures !OccursAt(b, Fence, k) && !OccursAt(b, JsonFence, k)
    {
      if k < |b| {
        NoOccurrenceInFreePrefix(b, b, Fence, k);
        NoOccurrenceInFreePrefix(b, b, JsonFence, k);
      }
    }
  }
}
