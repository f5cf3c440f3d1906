/**
 * The Telegram settings page: the token field, the connection flag, the channel
 * URL field and the channel list. Each handler is a function from the page's
 * state to its next state; the channel id is built from the current time,
 * which is a parameter here.
 */
module TelegramPage {
  import opened Text
  import opened Lists

  datatype PageChannel = PageChannel(id: string, name: string, active: bool, messages: int)

  datatype Page = Page(botToken: string, isConnected: bool, channelUrl: string, channels: seq<PageChannel>)

  /** `handleConnect`: an empty token is refused; any other token connects without a check. */
  function Connect(p: Page): (r: Page)
    ensures p.botToken == "" ==> r == p
    ensures p.botToken != "" ==> r == p.(isConnected := true)
  {
    if p.botToken == "" then p else p.(isConnected := true)
  }

  /** The channel an add creates from a URL, with the id `channel-<now>`. */
  function NewChannel(url: string, now: int): (r: PageChannel)
    ensures r.id == "channel-" + Decimal(now) && r.name == "Novo Canal (" + url + ")"
    ensures r.active && r.messages == 0
  {
    PageChannel("channel-" + Decimal(now), "Novo Canal (" + url + ")", true, 0)
  }

  /** `handleAddChannel`: an empty URL is refused; otherwise one channel is appended and the field cleared. */
  function AddChannel(p: Page, now: int): (r: Page)
    ensures p.channelUrl == "" ==> r == p
    ensures p.channelUrl != "" ==>
      r.channels == p.channels + [NewChannel(p.channelUrl, now)] && r.channelUrl == ""
      && r.botToken == p.botToken && r.isConnected == p.isConnected
  {
    if p.channelUrl == "" then p
    else p.(channels := p.channels + [NewChannel(p.channelUrl, now)], channelUrl := "")
  }

  /** `handleToggleChannel`: flips the flag of the channels with the id. */
  function ToggleChannel(cs: seq<PageChannel>, id: string): (r: seq<PageChannel>)
    ensures |r| == |cs|
    ensures forall i :: 0 <= i < |cs| ==>
      r[i] == if cs[i].id == id then cs[i].(active := !cs[i].active) else cs[i]
  {
    seq(|cs|, i requires 0 <= i < |cs| => if cs[i].id == id then cs[i].(active := !cs[i].active) else cs[i])
  }

  /** `handleRemoveChannel`: the `filter` that keeps the channels with another id, in their order. */
  function RemoveChannel(cs: seq<PageChannel>, id: string): (r: seq<PageChannel>)
    ensures |r| <= |cs|
    ensures forall x :: x in r <==> x in cs && x.id != id
  {
    var keep := (x: PageChannel) => x.id != id;
    FilterMembers(cs, keep);
    Filter(cs, keep)
  }

  /** The footer's count of active channels. */
  function ActiveCount(cs: seq<PageChannel>): (n: nat)
    ensures n <= |cs|
    decreases |cs|
  {
    if cs == [] then 0 else (if cs[0].active then 1 else 0) + ActiveCount(cs[1..])
  }

  /** Toggling twice is the identity. */
  lemma ToggleChannelTwice(cs: seq<PageChannel>, id: string)
    ensures ToggleChannel(ToggleChannel(cs, id), id) == cs
  {
  }

  /** Adding a channel adds one active channel to the count. */
  lemma {:induction false} ActiveCountAppend(a: seq<PageChannel>, b: seq<PageChannel>)
    ensures ActiveCount(a + b) == ActiveCount(a) + ActiveCount(b)
    decreases |a|
  {
    if a == [] {
      assert a + b == b;
    } else {
      ActiveCountAppend(a[1..], b);
      assert (a + b)[1..] == a[1..] + b;
    }
  }

  /** A valid add raises both counts of the footer by one. */
  lemma AddChannelCounts(p: Page, now: int)
    requires p.channelUrl != ""
    ensures var r := AddChannel(p, now);
      |r.channels| == |p.channels| + 1 && ActiveCount(r.channels) == ActiveCount(p.channels) + 1
  {
    ActiveCountAppend(p.channels, [NewChannel(p.channelUrl, now)]);
  }
}
