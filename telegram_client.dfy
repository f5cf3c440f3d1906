/**
 * The Telegram Bot API client: the action-keyword test, the connection flag,
 * and what `getChannels` and `getMessages` make of a batch of updates once the
 * network has delivered it.
 *
 * The HTTP calls are not modelled: the reply of `getMe` and the batch of
 * updates returned by `getUpdates` are parameters.
 */
module TelegramClient {
  import opened Wrappers
  import opened Text
  import opened Lists

  const ApiBase := "https://api.telegram.org/bot"

  /** The markers that make a message call for an action. */
  const ActionPatterns := ["Entrada:", "Aposta:", "Sinal:", "Oportunidade:"]

  // ---------------------------------------------------------------- updates

  /** A Telegram chat; `title` and `username` are optional in the Bot API. */
  datatype Chat = Chat(id: int, chatType: string, title: Option<string>, username: Option<string>)

  /** The sending user of a message; only the first name is read. */
  datatype Sender = Sender(firstName: string)

  /** A `message` or `channel_post` object; `date` is in Unix seconds. */
  datatype Post = Post(messageId: int, chat: Chat, from: Option<Sender>, text: Option<string>, date: int)

  /** One element of the `getUpdates` result; either post may be missing. */
  datatype Update = Update(message: Option<Post>, channelPost: Option<Post>)

  /** A channel as `getChannels` reports it. */
  datatype Channel = Channel(
    id: string,
    name: string,
    username: Option<string>,
    chatType: string,
    active: bool,
    messagesCount: int)

  /** A message as `getMessages` reports it; `timestamp` stays in Unix seconds. */
  datatype Message = Message(
    id: string,
    chatId: string,
    sender: Option<string>,
    content: string,
    timestamp: int,
    hasAction: bool,
    actionTaken: bool)

  // ---------------------------------------------------------------- checkIfHasAction

  /** `checkIfHasAction`: some action pattern occurs in the text, case-sensitively. */
  predicate HasAction(text: string)
    ensures text in ActionPatterns ==> HasAction(text)
  {
    exists i :: 0 <= i < |ActionPatterns| && Contains(text, ActionPatterns[i])
  }

  /** A text has an action exactly when one of the four patterns occurs at some position of it. */
  lemma {:induction false} HasActionIffOccurs(text: string)
    ensures HasAction(text) <==>
      exists i, k :: 0 <= i < |ActionPatterns| && OccursAt(text, ActionPatterns[i], k)
  {
    forall i | 0 <= i < |ActionPatterns|
      ensures Contains(text, ActionPatterns[i]) <==> exists k :: OccursAt(text, ActionPatterns[i], k)
    {
      ContainsIffOccurs(text, ActionPatterns[i]);
    }
  }

  /** A pattern anywhere in a text, with anything around it, makes the text an action. */
  lemma {:induction false} PatternMakesAction(before: string, i: int, after: string)
    requires 0 <= i < |ActionPatterns|
    ensures HasAction(before + ActionPatterns[i] + after)
  {
    var text := before + ActionPatterns[i] + after;
    assert text[|before|..|before| + |ActionPatterns[i]|] == ActionPatterns[i];
    assert OccursAt(text, ActionPatterns[i], |before|);
    ContainsIffOccurs(text, ActionPatterns[i]);
  }

  /** A text shorter than every pattern, the empty text among them, has no action. */
  lemma {:induction false} ShortTextHasNoAction(text: string)
    requires |text| < 6
    ensures !HasAction(text)
  {
    forall i | 0 <= i < |ActionPatterns|
      ensures !Contains(text, ActionPatterns[i])
    {
      ContainsIffOccurs(text, ActionPatterns[i]);
    }
  }

  // ---------------------------------------------------------------- getChannels

  /** The post an update carries: `message` takes precedence over `channel_post`. */
  function PostOf(u: Update): (r: Option<Post>)
    ensures u.message.Some? ==> r == u.message
    ensures r.None? <==> u.message.None? && u.channelPost.None?
  {
    if u.message.Some? then u.message else u.channelPost
  }

  /** Only channels, groups and supergroups are listed; private chats are not. */
  predicate IsListedType(t: string)
    ensures t == "private" ==> !IsListedType(t)
  {
    t == "channel" || t == "group" || t == "supergroup"
  }

  /** The chat an update contributes to `getChannels`, if any. */
  function ListedChat(u: Update): (r: Option<Chat>)
    ensures r.Some? <==> PostOf(u).Some? && IsListedType(PostOf(u).value.chat.chatType)
    ensures r.Some? ==> r.value == PostOf(u).value.chat
  {
    match PostOf(u)
    case None => None
    case Some(p) => if IsListedType(p.chat.chatType) then Some(p.chat) else None
  }

  /** The entry `getChannels` makes for a chat: active, no messages, named by its title or by its id. */
  function ChannelOf(chat: Chat): (r: Channel)
    ensures r.id == Decimal(chat.id)
    ensures r.active && r.messagesCount == 0
    ensures r.name == if chat.title.Some? && chat.title.value != "" then chat.title.value else "Canal " + r.id
    ensures r.username == chat.username && r.chatType == chat.chatType
  {
    var id := Decimal(chat.id);
    Channel(id, if chat.title.Some? && chat.title.value != "" then chat.title.value else "Canal " + id,
            chat.username, chat.chatType, true, 0)
  }

  function Ids(cs: seq<Channel>): set<string> {
    set c | c in cs :: c.id
  }

  lemma IdsAppend(cs: seq<Channel>, c: Channel)
    ensures Ids(cs + [c]) == Ids(cs) + {c.id}
  {
    assert forall x :: x in cs + [c] <==> x in cs || x == c;
  }

  /**
   * The channel list of a batch of updates: the updates are visited in order and
   * a chat is entered under its id unless that id is already present, so the
   * list is in order of first appearance.
   */
  function ChannelsOf(us: seq<Update>): (r: seq<Channel>)
    ensures |r| <= |us|
    decreases |us|
  {
    if us == [] then []
    else
      var before := ChannelsOf(us[..|us| - 1]);
      match ListedChat(us[|us| - 1])
      case None => before
      case Some(chat) => if Decimal(chat.id) in Ids(before) then before else before + [ChannelOf(chat)]
  }

  /** The post-fetch part of `getChannels`: the `forEach` that fills the id-keyed map. */
  method ExtractChannels(us: seq<Update>) returns (channels: seq<Channel>)
    ensures channels == ChannelsOf(us)
  {
    channels := [];
    var seen: set<string> := {};
    for i := 0 to |us|
      invariant channels == ChannelsOf(us[..i])
      invariant seen == Ids(channels)
    {
      assert us[..i + 1][..i] == us[..i];
      var chat := ListedChat(us[i]);
      if chat.Some? {
        var id := Decimal(chat.value.id);
        if id !in seen {
          IdsAppend(channels, ChannelOf(chat.value));
          channels := channels + [ChannelOf(chat.value)];
          seen := seen + {id};
        }
      }
    }
    assert us[..|us|] == us;
  }

  /** No id is listed twice. */
  lemma {:induction false} ChannelIdsDistinct(us: seq<Update>)
    ensures forall i, j :: 0 <= i < j < |ChannelsOf(us)| ==> ChannelsOf(us)[i].id != ChannelsOf(us)[j].id
    decreases |us|
  {
    if us != [] {
      ChannelIdsDistinct(us[..|us| - 1]);
    }
  }

  /** Every listed entry is an active channel, group or supergroup with no messages counted. */
  lemma {:induction false} ChannelsAreListedDefaults(us: seq<Update>)
    ensures forall c :: c in ChannelsOf(us) ==> IsListedType(c.chatType) && c.active && c.messagesCount == 0
    decreases |us|
  {
    if us != [] {
      ChannelsAreListedDefaults(us[..|us| - 1]);
    }
  }

  /** The update lists a chat whose id is `id`. */
  predicate ListsId(u: Update, id: string) {
    ListedChat(u).Some? && Decimal(ListedChat(u).value.id) == id
  }

  /** Some update among the first `n` lists a chat whose id is `id`. */
  ghost predicate ListedAmongFirst(us: seq<Update>, n: int, id: string) {
    exists k :: 0 <= k < n && k < |us| && ListsId(us[k], id)
  }

  /** Some update among the whole batch lists the id exactly when one before the last does or the last one does. */
  lemma ListedAmongLast(us: seq<Update>, id: string)
    requires us != []
    ensures ListedAmongFirst(us, |us|, id) <==> ListedAmongFirst(us[..|us| - 1], |us| - 1, id) || ListsId(us[|us| - 1], id)
  {
    var n := |us| - 1;
    var init := us[..n];
    if ListedAmongFirst(init, n, id) {
      var k :| 0 <= k < n && k < |init| && ListsId(init[k], id);
      assert init[k] == us[k];
    }
    if ListsId(us[n], id) {
      assert 0 <= n < |us| && ListsId(us[n], id);
    }
    if ListedAmongFirst(us, |us|, id) {
      var k :| 0 <= k < |us| && ListsId(us[k], id);
      if k < n {
        assert init[k] == us[k];
      }
    }
  }

  /** An id is in the list exactly when some update of the batch lists a chat with that id. */
  lemma {:induction false} ChannelIdsAreListedChats(us: seq<Update>, id: string)
    ensures id in Ids(ChannelsOf(us)) <==> ListedAmongFirst(us, |us|, id)
    decreases |us|
  {
    if us != [] {
      var n := |us| - 1;
      var init := us[..n];
      ChannelIdsAreListedChats(init, id);
      ListedAmongLast(us, id);
      var before := ChannelsOf(init);
      match ListedChat(us[n])
      case None =>
      case Some(chat) =>
        if Decimal(chat.id) !in Ids(before) {
          IdsAppend(before, ChannelOf(chat));
        }
    }
  }

  /** One more update leaves the list so far in place and adds at most one channel at its end. */
  lemma ChannelsStep(us: seq<Update>, n: int)
    requires 0 <= n < |us|
    ensures var p := ChannelsOf(us[..n]);
      var q := ChannelsOf(us[..n + 1]);
      |p| <= |q| <= |p| + 1 && q[..|p|] == p
  {
    assert us[..n + 1][..n] == us[..n];
  }

  /**
   * The list built from a prefix of the batch is a prefix of the list built from
   * the whole batch: later updates only append, so the list follows first appearance.
   */
  lemma {:induction false} ChannelsGrowByAppending(us: seq<Update>, n: int)
    requires 0 <= n <= |us|
    ensures var p := ChannelsOf(us[..n]);
      |p| <= |ChannelsOf(us)| && ChannelsOf(us)[..|p|] == p
    decreases |us|
  {
    if n < |us| {
      var init := us[..|us| - 1];
      ChannelsGrowByAppending(init, n);
      assert init[..n] == us[..n];
      ChannelsStep(us, |us| - 1);
      assert us[..|us|] == us;
      PrefixOfPrefix(ChannelsOf(us[..n]), ChannelsOf(init), ChannelsOf(us));
    } else {
      assert us[..n] == us;
    }
  }

  /**
   * Each listed channel is the entry of the FIRST update in the batch that lists
   * a chat with its id: later chats with the same id are ignored.
   */
  lemma {:induction false} FirstOccurrenceWins(us: seq<Update>, k: int)
    requires 0 <= k < |us| && ListedChat(us[k]).Some?
    requires !ListedAmongFirst(us, k, Decimal(ListedChat(us[k]).value.id))
    ensures ChannelOf(ListedChat(us[k]).value) in ChannelsOf(us)
  {
    var chat := ListedChat(us[k]).value;
    var pre := us[..k];
    assert forall j :: 0 <= j < k ==> pre[j] == us[j];
    ChannelIdsAreListedChats(pre, Decimal(chat.id));
    assert us[..k + 1][..k] == pre;
    assert ChannelsOf(us[..k + 1]) == ChannelsOf(pre) + [ChannelOf(chat)];
    ChannelsGrowByAppending(us, k + 1);
    var p := ChannelsOf(us[..k + 1]);
    assert ChannelsOf(us)[|p| - 1] == p[|p| - 1];
  }

  // ---------------------------------------------------------------- getMessages

  /**
   * The record `getMessages` makes of a post: the sender is the first name of
   * `from`, else the chat title; missing or empty text gives empty content and no action.
   */
  function MessageOf(p: Post): (r: Message)
    ensures r.id == Decimal(p.messageId) && r.chatId == Decimal(p.chat.id) && r.timestamp == p.date
    ensures r.sender == if p.from.Some? then Some(p.from.value.firstName) else p.chat.title
    ensures r.content == if p.text.Some? then p.text.value else ""
    ensures r.hasAction <==> HasAction(r.content)
    ensures !r.actionTaken
  {
    ShortTextHasNoAction("");
    var text := if p.text.Some? && p.text.value != "" then p.text.value else "";
    Message(Decimal(p.messageId), Decimal(p.chat.id),
            if p.from.Some? then Some(p.from.value.firstName) else p.chat.title,
            text, p.date, if text != "" then HasAction(text) else false, false)
  }

  /** The post of an update when it belongs to the chat with the given id. */
  function PostIn(u: Update, channelId: string): (r: Option<Post>)
    ensures r.Some? <==> PostOf(u).Some? && Decimal(PostOf(u).value.chat.id) == channelId
    ensures r.Some? ==> r.value == PostOf(u).value
  {
    match PostOf(u)
    case None => None
    case Some(p) => if Decimal(p.chat.id) == channelId then Some(p) else None
  }

  /** The records of all posts of a batch that belong to one chat, in update order. */
  function MessagesOf(us: seq<Update>, channelId: string): (r: seq<Message>)
    ensures |r| <= |us|
    decreases |us|
  {
    if us == [] then []
    else
      var before := MessagesOf(us[..|us| - 1], channelId);
      match PostIn(us[|us| - 1], channelId)
      case None => before
      case Some(p) => before + [MessageOf(p)]
  }

  /** The post-fetch part of `getMessages`: the `forEach` that pushes records, then `slice(0, limit)`. */
  method ExtractMessages(us: seq<Update>, channelId: string, limit: int) returns (messages: seq<Message>)
    ensures messages == SliceTo(MessagesOf(us, channelId), limit)
  {
    messages := [];
    for i := 0 to |us|
      invariant messages == MessagesOf(us[..i], channelId)
    {
      assert us[..i + 1][..i] == us[..i];
      var p := PostIn(us[i], channelId);
      if p.Some? {
        messages := messages + [MessageOf(p.value)];
      }
    }
    assert us[..|us|] == us;
    messages := SliceTo(messages, limit);
  }

  /** Splitting the batch splits the records: they are produced update by update. */
  lemma {:induction false} MessagesOfAppend(a: seq<Update>, b: seq<Update>, channelId: string)
    ensures MessagesOf(a + b, channelId) == MessagesOf(a, channelId) + MessagesOf(b, channelId)
    decreases |b|
  {
    if b != [] {
      var init := b[..|b| - 1];
      MessagesOfAppend(a, init, channelId);
      assert (a + b)[..|a + b| - 1] == a + init;
    } else {
      assert a + b == a;
    }
  }

  /** Every record belongs to the requested chat and has no action taken yet. */
  lemma {:induction false} MessagesBelongToChannel(us: seq<Update>, channelId: string)
    ensures forall m :: m in MessagesOf(us, channelId) ==> m.chatId == channelId && !m.actionTaken
    decreases |us|
  {
    if us != [] {
      MessagesBelongToChannel(us[..|us| - 1], channelId);
    }
  }

  /** Every post of the requested chat yields a record, so nothing is dropped before the limit. */
  lemma {:induction false} MessagesComplete(us: seq<Update>, channelId: string, k: int)
    requires 0 <= k < |us| && PostIn(us[k], channelId).Some?
    ensures MessageOf(PostIn(us[k], channelId).value) in MessagesOf(us, channelId)
    decreases |us|
  {
    var n := |us| - 1;
    var before := MessagesOf(us[..n], channelId);
    if k < n {
      MessagesComplete(us[..n], channelId, k);
      assert us[..n][k] == us[k];
      assert MessageOf(PostIn(us[k], channelId).value) in before;
    } else {
      assert MessagesOf(us, channelId) == before + [MessageOf(PostIn(us[n], channelId).value)];
    }
  }

  /** `getMessages` never returns more records than a non-negative limit. */
  lemma ExtractedWithinLimit(us: seq<Update>, channelId: string, limit: int)
    requires limit >= 0
    ensures |SliceTo(MessagesOf(us, channelId), limit)| <= limit
  {
  }

  // ---------------------------------------------------------------- the client

  /** The `getMe` reply: a network error, or a body whose `ok` flag may be false. */
  datatype Reply = NetworkError | Response(ok: bool)

  datatype ConnectionError = NoToken | ConnectionRefused | RequestFailed

  /** `testConnection`: an empty token fails without a request; only an ok reply connects. */
  function TestOutcome(token: string, reply: Reply): (r: Result<bool, ConnectionError>)
    ensures r.Ok? <==> token != "" && reply == Response(true)
    ensures r.Ok? ==> r.value
    ensures token == "" ==> r == Err(NoToken)
  {
    if token == "" then Err(NoToken)
    else match reply
      case NetworkError => Err(RequestFailed)
      case Response(ok) => if ok then Ok(true) else Err(ConnectionRefused)
  }

  class Client {
    var token: string
    var baseUrl: string
    var isConnected: bool
    /** The URLs requested so far, oldest first. */
    var requests: seq<string>

    /** The base URL always follows the token. */
    predicate Valid()
      reads this
    {
      baseUrl == ApiBase + token
    }

    constructor (token: string)
      ensures Valid() && this.token == token && !isConnected && requests == []
    {
      this.token := token;
      baseUrl := ApiBase + token;
      isConnected := false;
      requests := [];
    }

    /** Replaces the token and the base URL; the connection flag is left as it was. */
    method SetToken(token: string)
      modifies this`token, this`baseUrl
      ensures Valid() && this.token == token
    {
      this.token := token;
      baseUrl := ApiBase + token;
    }

    method TestConnection(reply: Reply) returns (r: Result<bool, ConnectionError>)
      requires Valid()
      modifies this`isConnected, this`requests
      ensures r == TestOutcome(token, reply) && isConnected == r.Ok?
      ensures requests == if token == "" then old(requests) else old(requests) + [baseUrl + "/getMe"]
    {
      if token == "" {
        isConnected := false;
        return Err(NoToken);
      }
      requests := requests + [baseUrl + "/getMe"];
      if reply.Response? && reply.ok {
        isConnected := true;
        return Ok(true);
      }
      isConnected := false;
      r := if reply.NetworkError? then Err(RequestFailed) else Err(ConnectionRefused);
    }
  }
}
