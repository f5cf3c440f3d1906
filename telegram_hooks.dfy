/**
 * The three React hooks over the Telegram client: the connection (token and
 * flag), the channel list merged with the saved one, and the message feed of
 * the active channels.
 *
 * The browser's `localStorage` is the object `Storage`, shared by the hooks; its
 * JSON encoding is not modelled, and a missing key reads as the empty list. A
 * hook's React state is a field of its class, and each setter is an assignment.
 */
module TelegramHooks {
  import opened Wrappers
  import opened Lists
  import TC = TelegramClient

  type Channel = TC.Channel

  const UnknownChannelName := "Canal Desconhecido"

  /**
   * A message as the store keeps it; `timestamp` is an integer instead of an ISO
   * date, and `channelName` is set on the messages `fetchMessages` returns.
   */
  datatype StoredMessage = StoredMessage(
    id: string,
    channelId: string,
    sender: Option<string>,
    content: string,
    timestamp: int,
    hasAction: bool,
    actionTaken: bool,
    channelName: Option<string>)

  /** The three `localStorage` keys the hooks use. */
  class Storage {
    var botToken: Option<string>
    var channels: seq<Channel>
    var messages: seq<StoredMessage>

    constructor ()
      ensures botToken == None && channels == [] && messages == []
    {
      botToken := None;
      channels := [];
      messages := [];
    }
  }

  // ---------------------------------------------------------------- useTelegramConnection

  datatype ConnectError = EmptyToken | ClientError(cause: TC.ConnectionError)

  /** What `connect` resolves to: an empty token is refused, otherwise the client's test decides. */
  function ConnectOutcome(newToken: string, reply: TC.Reply): (r: Result<bool, ConnectError>)
    ensures r.Ok? <==> newToken != "" && reply == TC.Response(true)
    ensures r.Ok? ==> r.value
    ensures newToken == "" ==> r == Err(EmptyToken)
  {
    if newToken == "" then Err(EmptyToken)
    else match TC.TestOutcome(newToken, reply)
      case Ok(v) => Ok(v)
      case Err(e) => Err(ClientError(e))
  }

  class ConnectionHook {
    var token: string
    var isConnected: bool
    const client: TC.Client
    const storage: Storage

    constructor (client: TC.Client, storage: Storage)
      ensures token == "" && !isConnected && this.client == client && this.storage == storage
    {
      token := "";
      isConnected := false;
      this.client := client;
      this.storage := storage;
    }

    /**
     * The mount effect: a saved non-empty token is adopted and tested; a failed
     * test is swallowed and leaves the flag as it was.
     */
    method RestoreSavedToken(reply: TC.Reply)
      modifies this`token, this`isConnected, client
      ensures var saved := storage.botToken;
        if saved.Some? && saved.value != "" then
          token == saved.value && client.token == saved.value && client.Valid()
          && isConnected == (old(isConnected) || TC.TestOutcome(saved.value, reply).Ok?)
          && client.isConnected == TC.TestOutcome(saved.value, reply).Ok?
          && client.requests == old(client.requests) + [TC.ApiBase + saved.value + "/getMe"]
        else
          token == old(token) && isConnected == old(isConnected) && unchanged(client)
    {
      var saved := storage.botToken;
      if saved.Some? && saved.value != "" {
        token := saved.value;
        client.SetToken(saved.value);
        var r := client.TestConnection(reply);
        if r.Ok? {
          isConnected := r.value;
        }
      }
    }

    /**
     * `connect`: the client gets the new token before the test, so after a failed
     * test the client holds the new token while the hook keeps its old one.
     */
    method Connect(newToken: string, reply: TC.Reply) returns (r: Result<bool, ConnectError>)
      modifies this`token, this`isConnected, client, storage`botToken
      ensures r == ConnectOutcome(newToken, reply) && isConnected == r.Ok?
      ensures token == if r.Ok? then newToken else old(token)
      ensures storage.botToken == if r.Ok? then Some(newToken) else old(storage.botToken)
      ensures newToken == "" ==> unchanged(client)
      ensures newToken != "" ==> client.token == newToken && client.Valid() && client.isConnected == r.Ok?
      ensures newToken != "" ==> client.requests == old(client.requests) + [TC.ApiBase + newToken + "/getMe"]
    {
      if newToken == "" {
        isConnected := false;
        return Err(EmptyToken);
      }
      client.SetToken(newToken);
      var t := client.TestConnection(reply);
      if t.Err? {
        isConnected := false;
        return Err(ClientError(t.error));
      }
      isConnected := true;
      token := newToken;
      storage.botToken := Some(newToken);
      r := Ok(true);
    }

    /** `disconnect` clears the hook and the saved token; the shared client is left as it is. */
    method Disconnect()
      modifies this`token, this`isConnected, storage`botToken
      ensures !isConnected && token == "" && storage.botToken == None
    {
      isConnected := false;
      token := "";
      storage.botToken := None;
    }
  }

  // ---------------------------------------------------------------- the channel merge

  /** `find` by id: the first entry with that id. */
  function FindById(cs: seq<Channel>, id: string): (r: Option<Channel>)
    ensures r.Some? <==> id in TC.Ids(cs)
    ensures r.Some? ==> r.value in cs && r.value.id == id
    decreases |cs|
  {
    if cs == [] then None
    else if cs[0].id == id then Some(cs[0])
    else
      assert forall c :: c in cs <==> c == cs[0] || c in cs[1..];
      FindById(cs[1..], id)
  }

  /** A fetched channel keeps the flag and count of the saved entry with its id, else gets `true` and 0. */
  function Adopted(c: Channel, saved: seq<Channel>): (r: Channel)
    ensures r.id == c.id && r.name == c.name && r.username == c.username && r.chatType == c.chatType
    ensures FindById(saved, c.id).Some? ==>
      r.active == FindById(saved, c.id).value.active && r.messagesCount == FindById(saved, c.id).value.messagesCount
    ensures FindById(saved, c.id).None? ==> r.active && r.messagesCount == 0
  {
    match FindById(saved, c.id)
    case Some(sc) => c.(active := sc.active, messagesCount := sc.messagesCount)
    case None => c.(active := true, messagesCount := 0)
  }

  /** The `map` over the fetched channels. */
  function AdoptAll(fetched: seq<Channel>, saved: seq<Channel>): (r: seq<Channel>)
    ensures |r| == |fetched|
    ensures forall i :: 0 <= i < |fetched| ==> r[i] == Adopted(fetched[i], saved)
  {
    seq(|fetched|, i requires 0 <= i < |fetched| => Adopted(fetched[i], saved))
  }

  lemma AdoptAllIds(fetched: seq<Channel>, saved: seq<Channel>)
    ensures TC.Ids(AdoptAll(fetched, saved)) == TC.Ids(fetched)
  {
    var a := AdoptAll(fetched, saved);
    forall x | x in TC.Ids(fetched) ensures x in TC.Ids(a) {
      var i :| 0 <= i < |fetched| && fetched[i].id == x;
      assert a[i].id == x;
    }
  }

  /** The `forEach` over the saved channels: each is pushed unless its id is already in the list. */
  function AppendMissing(acc: seq<Channel>, saved: seq<Channel>): (r: seq<Channel>)
    ensures |acc| <= |r| <= |acc| + |saved| && r[..|acc|] == acc
    decreases |saved|
  {
    if saved == [] then acc
    else AppendMissing(if saved[0].id in TC.Ids(acc) then acc else acc + [saved[0]], saved[1..])
  }

  /** The channel list `fetchChannels` stores: the adopted fetched channels, then the saved ones not yet listed. */
  function MergeChannels(fetched: seq<Channel>, saved: seq<Channel>): (r: seq<Channel>)
    ensures |fetched| <= |r| <= |fetched| + |saved|
    ensures r[..|fetched|] == AdoptAll(fetched, saved)
  {
    AppendMissing(AdoptAll(fetched, saved), saved)
  }

  /**
   * An independent description of what the saved-channel loop appends: the saved
   * channels in saved order, skipping each whose id has already been seen.
   */
  function Kept(saved: seq<Channel>, seen: set<string>): seq<Channel>
    decreases |saved|
  {
    if saved == [] then []
    else if saved[0].id in seen then Kept(saved[1..], seen)
    else [saved[0]] + Kept(saved[1..], seen + {saved[0].id})
  }

  /** The loop appends exactly `Kept`. */
  lemma {:induction false} AppendMissingIsKept(acc: seq<Channel>, saved: seq<Channel>)
    ensures AppendMissing(acc, saved) == acc + Kept(saved, TC.Ids(acc))
    decreases |saved|
  {
    if saved != [] {
      if saved[0].id in TC.Ids(acc) {
        AppendMissingIsKept(acc, saved[1..]);
      } else {
        TC.IdsAppend(acc, saved[0]);
        AppendMissingIsKept(acc + [saved[0]], saved[1..]);
      }
    }
  }

  /** What `Kept` appends comes from the saved list, has unseen and pairwise distinct ids, and misses no unseen id. */
  lemma {:induction false} KeptProperties(saved: seq<Channel>, seen: set<string>)
    ensures forall c :: c in Kept(saved, seen) ==> c in saved && c.id !in seen
    ensures forall i, j :: 0 <= i < j < |Kept(saved, seen)| ==> Kept(saved, seen)[i].id != Kept(saved, seen)[j].id
    ensures forall c :: c in saved && c.id !in seen ==> c.id in TC.Ids(Kept(saved, seen))
    decreases |saved|
  {
    if saved != [] {
      if saved[0].id in seen {
        KeptProperties(saved[1..], seen);
      } else {
        KeptProperties(saved[1..], seen + {saved[0].id});
        var rest := Kept(saved[1..], seen + {saved[0].id});
        assert Kept(saved, seen) == [saved[0]] + rest;
        forall c | c in saved && c.id !in seen
          ensures c.id in TC.Ids(Kept(saved, seen))
        {
          if c != saved[0] {
            assert c in saved[1..];
            if c.id != saved[0].id {
              var k :| k in rest && k.id == c.id;
              assert k in Kept(saved, seen);
            }
          }
        }
      }
    }
  }

  /**
   * The merge lists every fetched channel first, in fetched order and adopted from
   * the saved list, then appends the saved channels whose id was not fetched, in
   * saved order and once per id.
   */
  lemma {:induction false} MergeLayout(fetched: seq<Channel>, saved: seq<Channel>)
    ensures var m := MergeChannels(fetched, saved);
      |m| >= |fetched|
      && (forall i :: 0 <= i < |fetched| ==> m[i] == Adopted(fetched[i], saved))
      && m[|fetched|..] == Kept(saved, TC.Ids(fetched))
  {
    AppendMissingIsKept(AdoptAll(fetched, saved), saved);
    AdoptAllIds(fetched, saved);
  }

  /** No saved channel is lost: each saved id is in the merged list. */
  lemma {:induction false} MergeLosesNoSavedChannel(fetched: seq<Channel>, saved: seq<Channel>)
    ensures forall c :: c in saved ==> c.id in TC.Ids(MergeChannels(fetched, saved))
  {
    var m := MergeChannels(fetched, saved);
    MergeLayout(fetched, saved);
    KeptProperties(saved, TC.Ids(fetched));
    AdoptAllIds(fetched, saved);
    AppendMissingIsKept(AdoptAll(fetched, saved), saved);
    forall c | c in saved ensures c.id in TC.Ids(m) {
      if c.id in TC.Ids(fetched) {
        var i :| 0 <= i < |fetched| && fetched[i].id == c.id;
        assert m[i].id == c.id;
      } else {
        var k :| k in Kept(saved, TC.Ids(fetched)) && k.id == c.id;
        assert k in m;
      }
    }
  }

  /** A failed fetch keeps the saved channels, once per id, in saved order. */
  lemma {:induction false} FailedFetchKeepsSaved(saved: seq<Channel>)
    ensures MergeChannels([], saved) == Kept(saved, {})
  {
    AppendMissingIsKept([], saved);
    assert TC.Ids([]) == {};
  }

  /** `map` that sets the flag of the entries with the given id. */
  function SetActive(cs: seq<Channel>, id: string, active: bool): (r: seq<Channel>)
    ensures |r| == |cs|
    ensures forall i :: 0 <= i < |cs| ==> r[i] == if cs[i].id == id then cs[i].(active := active) else cs[i]
  {
    seq(|cs|, i requires 0 <= i < |cs| => if cs[i].id == id then cs[i].(active := active) else cs[i])
  }

  /** Toggling keeps every id in its place, changes only the flag of the matching entries, and repeating it changes nothing. */
  lemma SetActiveProperties(cs: seq<Channel>, id: string, active: bool)
    ensures var r := SetActive(cs, id, active);
      (forall i :: 0 <= i < |cs| ==> r[i].id == cs[i].id)
      && (forall c :: c in r && c.id == id ==> c.active == active)
      && SetActive(r, id, active) == r
  {
  }

  /** `removeChannel`'s `filter`: the entries with another id, in their order. */
  function WithoutId(cs: seq<Channel>, id: string): (r: seq<Channel>)
    ensures |r| <= |cs|
    ensures forall c :: c in r <==> c in cs && c.id != id
  {
    var keep := (c: Channel) => c.id != id;
    FilterMembers(cs, keep);
    Filter(cs, keep)
  }

  class ChannelsHook {
    var channels: seq<Channel>
    const storage: Storage

    constructor (storage: Storage)
      ensures channels == [] && this.storage == storage
    {
      channels := [];
      this.storage := storage;
    }

    /** `fetchChannels`; `None` is a fetch that threw, which counts as no fetched channels. */
    method FetchChannels(fetched: Option<seq<Channel>>) returns (merged: seq<Channel>)
      modifies this`channels, storage`channels
      ensures merged == MergeChannels(if fetched.Some? then fetched.value else [], old(storage.channels))
      ensures channels == merged && storage.channels == merged
    {
      var telegramChannels := if fetched.Some? then fetched.value else [];
      var saved := storage.channels;
      merged := AdoptAll(telegramChannels, saved);
      for i := 0 to |saved|
        invariant AppendMissing(merged, saved[i..]) == MergeChannels(telegramChannels, saved)
      {
        assert saved[i..][1..] == saved[i + 1..];
        if saved[i].id !in TC.Ids(merged) {
          merged := merged + [saved[i]];
        }
      }
      channels := merged;
      storage.channels := merged;
    }

    method ToggleChannelActive(id: string, active: bool)
      modifies this`channels, storage`channels
      ensures channels == SetActive(old(channels), id, active) && storage.channels == channels
    {
      channels := SetActive(channels, id, active);
      storage.channels := channels;
    }

    method RemoveChannel(id: string)
      modifies this`channels, storage`channels
      ensures channels == WithoutId(old(channels), id) && storage.channels == channels
    {
      channels := WithoutId(channels, id);
      storage.channels := channels;
    }
  }

  // ---------------------------------------------------------------- the message feed

  /** The ids of the active channels, in list order. */
  function ActiveIds(cs: seq<Channel>): (r: seq<string>)
    ensures |r| <= |cs|
    decreases |cs|
  {
    if cs == [] then []
    else (if cs[0].active then [cs[0].id] else []) + ActiveIds(cs[1..])
  }

  /** An id is active exactly when some active channel has it. */
  lemma {:induction false} ActiveIdsMembers(cs: seq<Channel>, x: string)
    ensures x in ActiveIds(cs) <==> exists c :: c in cs && c.active && c.id == x
    decreases |cs|
  {
    if cs != [] {
      ActiveIdsMembers(cs[1..], x);
      assert forall c :: c in cs <==> c == cs[0] || c in cs[1..];
    }
  }

  /** The stored messages whose channel id is among `ids`, in stored order. */
  function OfChannels(ms: seq<StoredMessage>, ids: seq<string>): (r: seq<StoredMessage>)
    ensures |r| <= |ms|
    decreases |ms|
  {
    if ms == [] then []
    else (if ms[0].channelId in ids then [ms[0]] else []) + OfChannels(ms[1..], ids)
  }

  /** Exactly the messages of the listed channels are kept. */
  lemma {:induction false} OfChannelsMembers(ms: seq<StoredMessage>, ids: seq<string>)
    ensures forall m :: m in OfChannels(ms, ids) <==> m in ms && m.channelId in ids
    decreases |ms|
  {
    if ms != [] {
      OfChannelsMembers(ms[1..], ids);
      assert forall m :: m in ms <==> m == ms[0] || m in ms[1..];
    }
  }

  /** Each message is at least as new as the next one. */
  predicate NewestFirst(ms: seq<StoredMessage>) {
    forall i :: 0 < i < |ms| ==> ms[i - 1].timestamp >= ms[i].timestamp
  }

  /** Newest first between neighbours is newest first between any two. */
  lemma {:induction false} NewestFirstPairwise(ms: seq<StoredMessage>, i: int, j: int)
    requires NewestFirst(ms) && 0 <= i <= j < |ms|
    ensures ms[i].timestamp >= ms[j].timestamp
    decreases j - i
  {
    if i < j {
      NewestFirstPairwise(ms, i + 1, j);
    }
  }

  /** Puts `m` before the first entry that is not newer than it, so equal timestamps keep their order. */
  function InsertNewestFirst(m: StoredMessage, ms: seq<StoredMessage>): (r: seq<StoredMessage>)
    requires NewestFirst(ms)
    ensures NewestFirst(r) && multiset(r) == multiset(ms) + multiset{m}
    ensures |r| == |ms| + 1 && (r[0] == m || (ms != [] && r[0] == ms[0]))
    decreases |ms|
  {
    if ms == [] || ms[0].timestamp <= m.timestamp then [m] + ms
    else
      assert ms == [ms[0]] + ms[1..];
      [ms[0]] + InsertNewestFirst(m, ms[1..])
  }

  /** The `sort` by descending timestamp; JavaScript's sort is stable, and so is this insertion sort. */
  function SortNewestFirst(ms: seq<StoredMessage>): (r: seq<StoredMessage>)
    ensures NewestFirst(r) && multiset(r) == multiset(ms) && |r| == |ms|
    decreases |ms|
  {
    if ms == [] then []
    else
      assert ms == [ms[0]] + ms[1..];
      InsertNewestFirst(ms[0], SortNewestFirst(ms[1..]))
  }

  /** The name `fetchMessages` shows: that of the first channel with the message's id, or a placeholder. */
  function ChannelNameFor(channels: seq<Channel>, id: string): (r: string)
    ensures FindById(channels, id).Some? ==> r == FindById(channels, id).value.name
    ensures FindById(channels, id).None? ==> r == UnknownChannelName
  {
    match FindById(channels, id)
    case Some(c) => c.name
    case None => UnknownChannelName
  }

  /** The messages of the active channels, newest first, cut by `slice(0, limit)`. */
  function ChosenMessages(channels: seq<Channel>, all: seq<StoredMessage>, limit: int): (r: seq<StoredMessage>)
    ensures |r| <= |all|
    ensures limit >= 0 ==> |r| <= limit
    ensures NewestFirst(r)
  {
    SliceTo(SortNewestFirst(OfChannels(all, ActiveIds(channels))), limit)
  }

  /**
   * `fetchMessages(limit)`: nothing when no channel is active; otherwise the
   * chosen messages, each named after its channel.
   */
  function SelectMessages(channels: seq<Channel>, all: seq<StoredMessage>, limit: int): (r: seq<StoredMessage>)
    ensures |ActiveIds(channels)| == 0 ==> r == []
    ensures |r| <= |all| && (limit >= 0 ==> |r| <= limit)
    ensures forall i :: 0 <= i < |r| ==> r[i].channelName.Some?
  {
    if |ActiveIds(channels)| == 0 then []
    else
      var chosen := ChosenMessages(channels, all, limit);
      seq(|chosen|, i requires 0 <= i < |chosen| =>
        chosen[i].(channelName := Some(ChannelNameFor(channels, chosen[i].channelId))))
  }

  /** Without an active channel the feed is empty. */
  lemma NoActiveChannelNoMessages(channels: seq<Channel>, all: seq<StoredMessage>, limit: int)
    requires forall c :: c in channels ==> !c.active
    ensures SelectMessages(channels, all, limit) == []
  {
    if |ActiveIds(channels)| != 0 {
      ActiveIdsMembers(channels, ActiveIds(channels)[0]);
    }
  }

  /** The feed is newest first and no longer than a non-negative limit. */
  lemma {:induction false} FeedNewestFirstWithinLimit(channels: seq<Channel>, all: seq<StoredMessage>, limit: int)
    ensures NewestFirst(SelectMessages(channels, all, limit))
    ensures limit >= 0 ==> |SelectMessages(channels, all, limit)| <= limit
  {
    if |ActiveIds(channels)| != 0 {
      var sorted := SortNewestFirst(OfChannels(all, ActiveIds(channels)));
      var chosen := ChosenMessages(channels, all, limit);
      var r := SelectMessages(channels, all, limit);
      forall i | 0 < i < |r| ensures r[i - 1].timestamp >= r[i].timestamp {
        assert chosen[i - 1] == sorted[i - 1] && chosen[i] == sorted[i];
      }
    }
  }

  /** A chosen message is a stored message of an active channel. */
  lemma {:induction false} ChosenFromActiveChannels(channels: seq<Channel>, all: seq<StoredMessage>, limit: int, m: StoredMessage)
    requires m in ChosenMessages(channels, all, limit)
    ensures m in all && m.channelId in ActiveIds(channels)
  {
    var sorted := SortNewestFirst(OfChannels(all, ActiveIds(channels)));
    assert m in sorted;
    assert m in multiset(sorted);
    OfChannelsMembers(all, ActiveIds(channels));
  }

  /**
   * Every message of the feed is a stored message of an active channel, named
   * after the first channel with its id, so the placeholder name never shows
   * unless a channel is called that.
   */
  lemma {:induction false} FeedMessagesNamedFromActiveChannels(channels: seq<Channel>, all: seq<StoredMessage>, limit: int, i: int)
    requires 0 <= i < |SelectMessages(channels, all, limit)|
    ensures var m := SelectMessages(channels, all, limit)[i];
      m.(channelName := None) in StripNames(all)
      && (exists c :: c in channels && c.active && c.id == m.channelId)
      && FindById(channels, m.channelId).Some?
      && m.channelName == Some(FindById(channels, m.channelId).value.name)
  {
    var chosen := ChosenMessages(channels, all, limit);
    var m := SelectMessages(channels, all, limit)[i];
    assert chosen[i] in chosen;
    ChosenFromActiveChannels(channels, all, limit, chosen[i]);
    ActiveIdsMembers(channels, m.channelId);
    var c :| c in channels && c.active && c.id == m.channelId;
    assert m.channelId in TC.Ids(channels);
    StripNamesHas(all, chosen[i]);
    assert m.(channelName := None) == chosen[i].(channelName := None);
  }

  /** The stored messages without their display names. */
  function StripNames(ms: seq<StoredMessage>): (r: seq<StoredMessage>)
    ensures |r| == |ms|
    ensures forall i :: 0 <= i < |ms| ==> r[i] == ms[i].(channelName := None)
  {
    seq(|ms|, i requires 0 <= i < |ms| => ms[i].(channelName := None))
  }

  lemma StripNamesHas(ms: seq<StoredMessage>, m: StoredMessage)
    requires m in ms
    ensures m.(channelName := None) in StripNames(ms)
  {
    var i :| 0 <= i < |ms| && ms[i] == m;
    assert StripNames(ms)[i] == m.(channelName := None);
  }

  /** `markMessageAsProcessed`: the `map` that sets the flag on the messages with that id. */
  function MarkProcessed(ms: seq<StoredMessage>, id: string): (r: seq<StoredMessage>)
    ensures |r| == |ms|
    ensures forall i :: 0 <= i < |ms| ==> r[i] == if ms[i].id == id then ms[i].(actionTaken := true) else ms[i]
  {
    seq(|ms|, i requires 0 <= i < |ms| => if ms[i].id == id then ms[i].(actionTaken := true) else ms[i])
  }

  /** Marking never clears a flag, sets the flag of every message with the id, and marking twice is marking once. */
  lemma MarkProcessedProperties(ms: seq<StoredMessage>, id: string)
    ensures var r := MarkProcessed(ms, id);
      (forall i :: 0 <= i < |ms| ==> (ms[i].actionTaken ==> r[i].actionTaken))
      && (forall i :: 0 <= i < |ms| && ms[i].id == id ==> r[i].actionTaken)
      && (forall i :: 0 <= i < |ms| && ms[i].id != id ==> r[i] == ms[i])
      && MarkProcessed(r, id) == r
  {
  }

  class MessagesHook {
    var messages: seq<StoredMessage>
    const storage: Storage

    constructor (storage: Storage)
      ensures messages == [] && this.storage == storage
    {
      messages := [];
      this.storage := storage;
    }

    method FetchMessages(limit: int) returns (r: seq<StoredMessage>)
      modifies this`messages
      ensures r == SelectMessages(storage.channels, storage.messages, limit) && messages == r
    {
      r := SelectMessages(storage.channels, storage.messages, limit);
      messages := r;
    }

    /** Marks the message in the feed and in the store. */
    method MarkMessageAsProcessed(id: string)
      modifies this`messages, storage`messages
      ensures messages == MarkProcessed(old(messages), id)
      ensures storage.messages == MarkProcessed(old(storage.messages), id)
    {
      messages := MarkProcessed(messages, id);
      storage.messages := MarkProcessed(storage.messages, id);
    }
  }
}
