# Telegram-signal betting bot: a verified model of its core

The bot reads betting signals that arrive in Telegram channels and drives a web browser that places the bets on a live "Futebol Studio" table. This project models the parts of the application that make decisions, in Dafny, and proves what each part promises:

- **`Automator`** (`automator.dfy`) is the betting automator. The class `BettingAutomator` keeps the automator's fields: browser, login flag, bet URL, credentials and delay. It also keeps a log of every call it makes into the browser wrapper. The browser page the automator sees during one operation is an `Env` parameter. Each method is proved equal to a function from the old fields to the new fields, the calls issued and the outcome, and the properties are lemmas about those functions. The properties covered are:
  - setting merging;
  - the failed-launch state;
  - login;
  - the order of `placeBet`'s steps;
  - bet-type selection;
  - result classification;
  - closing.
- **`TelegramClient`** (`telegram_client.dfy`) is the Bot API client:
  - token and base-URL handling, and the connection test;
  - action-pattern detection;
  - the loops that turn a batch of updates into a de-duplicated channel list, and into one channel's messages cut to a limit.
- **`TelegramHooks`** (`telegram_hooks.dfy`) covers the three React hooks over local storage:
  - the connection hook, with the saved token;
  - the channels hook, which merges fetched channels with the saved ones, toggles and removes;
  - the messages hook, which selects messages from active channels, newest first, names them, and marks one as processed.

  Local storage is a shared `Storage` object.
- **`BetRulesPage`**, **`TelegramPage`** and **`TelegramMessages`** model the page handlers as functions from one page state to the next.
- **`Electron`** models the browser fallbacks of the `useElectron` hook.
- **`Text`**, **`Lists`** and **`Wrappers`** hold the helpers the modules share:
  - substring search, ASCII lower-casing and decimal rendering;
  - JavaScript's `slice(0, n)`;
  - `Option` and `Result`.

## Model

| member | source | states |
|---|---|---|
| Automator.BettingAutomator.constructor | src/integrations/betting/automator.ts:5-16 | a new automator has no browser, is logged out, holds the default bet URL, empty credentials and a 5-second delay, and has issued no calls |
| Automator.GivenText | src/integrations/betting/automator.ts:25-27 | a string option is truthy exactly when it is present and not the empty string |
| Automator.GivenNumber | src/integrations/betting/automator.ts:28 | a number option is truthy exactly when it is present and not zero |
| Automator.MergeOptions | src/integrations/betting/automator.ts:25-28 | each setting is replaced exactly when its option is given and truthy (a non-empty string, a non-zero number) and kept otherwise |
| Automator.FalsyOptionsKeepSettings | src/integrations/betting/automator.ts:25-28 | empty strings, zero and omitted options leave every setting as it was |
| Automator.InitializeSpec | src/integrations/betting/automator.ts:18-39 | `initialize` issues exactly one launch, merges the options, keeps the login flag, and succeeds exactly when the browser ends up ready |
| Automator.InitializeKeepsLoginFlag | src/integrations/betting/automator.ts:18-39 | initialising never changes the login flag, and a launch that does not fail leaves a ready browser |
| Automator.FailedLaunchLeavesUnusableWrapper | src/integrations/betting/automator.ts:31-32 | the browser field is set before the launch is awaited, so after a failed launch no operation reports a missing browser: navigation and result checks reject at their first page call, having issued only that call; a bet rejects at its first page call (the URL read when logged in, else the account probe) having issued only that call, or, when logged out without both credentials, with "credentials not configured" before any call |
| Automator.BettingAutomator.Initialize | src/integrations/betting/automator.ts:18-39 | the new fields, the calls and the outcome are those of `InitializeSpec` |
| Automator.Issued | src/integrations/betting/automator.ts:143-155 | a sequence of awaited calls issues a prefix of its calls: all of them when all succeed, otherwise up to and including the first failing one |
| Automator.Await | src/integrations/betting/automator.ts:143-157 | awaiting a sequence of calls succeeds exactly when every call succeeds, and then it has issued all of them; the fields do not change |
| Automator.AwaitStopsAtFirstFailure | src/integrations/betting/automator.ts:143-160 | when call k is the first to fail, the calls up to k are issued and the operation rejects with that call's error |
| Automator.IssuedFromGiven | src/integrations/betting/automator.ts:143-155 | awaiting a sequence issues no call outside it |
| Automator.NavigateSpec | src/integrations/betting/automator.ts:41-57 | without a browser, navigation rejects and issues nothing; it resolves exactly when there is a browser and both the `goto` to the bet URL and the wait for the game container succeed, and then those two calls are all it issued |
| Automator.BettingAutomator.NavigateToBettingSite | src/integrations/betting/automator.ts:41-57 | the calls and the outcome are those of `NavigateSpec`, and the fields do not change |
| Automator.LoginSpec | src/integrations/betting/automator.ts:59-102 | login keeps the browser and settings, the automator is logged in exactly when login succeeds (every failure clears the flag), it issues a call only with a browser and both credentials, and it resolves exactly when there is a browser, both credentials are set, the account probe succeeds, and either the marker is present or every login-form call succeeds |
| Automator.LoginNeedsCredentials | src/integrations/betting/automator.ts:65-67 | a missing username or password rejects before any page call and clears the login flag |
| Automator.LoginSucceedsIff | src/integrations/betting/automator.ts:69-96 | login succeeds exactly when the account marker is already on the page or the whole form sequence succeeds; in the second case the stored username and password are typed |
| Automator.LoginShortCircuits | src/integrations/betting/automator.ts:69-77 | when the account marker is already present, login issues only the probe, sets the logged-in flag and resolves, with no click and no typing |
| Automator.BettingAutomator.Login | src/integrations/betting/automator.ts:59-102 | the new fields, the calls and the outcome are those of `LoginSpec` |
| Automator.BetSelector | src/integrations/betting/automator.ts:126-140 | a bet type is accepted exactly when its lower-cased form is `casa`, `fora` or `empate`, and then it selects one of the three bet buttons |
| Automator.BetSelectorChoices | src/integrations/betting/automator.ts:128-137 | `casa` selects the home button, `fora` the away button and `empate` the draw button, in any letter case, and nothing else selects them |
| Automator.BetSelectorIgnoresCase | src/integrations/betting/automator.ts:128 | the selection does not depend on the letter case of the bet type |
| Automator.After | src/integrations/betting/automator.ts:104-162 | running one step after others puts the earlier calls in front and keeps the step's outcome and new fields |
| Automator.LoginPhase | src/integrations/betting/automator.ts:116-118 | `placeBet`'s login step keeps the browser and settings and leaves the automator logged in when it succeeds |
| Automator.NavPhase | src/integrations/betting/automator.ts:121-124 | navigation is skipped, with no call, when the URL contains `futebol-studio-ao-vivo`; the step resolves exactly when it is skipped or the whole navigation succeeds |
| Automator.BetPhase | src/integrations/betting/automator.ts:126-155 | an unknown bet type rejects with "bet type not recognised" and no call; otherwise the step resolves exactly when all five bet calls on the type's button succeed, and then they are all it issued |
| Automator.ReachPhase | src/integrations/betting/automator.ts:120-124 | reaching the page starts with the URL read and resolves exactly when that read and the navigation step both succeed |
| Automator.OnPagePhase | src/integrations/betting/automator.ts:120-155 | the on-page part resolves exactly when reaching the page and the bet step both resolve, and a failure to reach the page is the result unchanged |
| Automator.PlaceBetSpec | src/integrations/betting/automator.ts:104-162 | `placeBet` keeps the browser and settings, and a successful bet leaves the automator logged in |
| Automator.BettingAutomator.PlaceBet | src/integrations/betting/automator.ts:104-162 | the new fields, the calls and the outcome are those of `PlaceBetSpec` |
| Automator.NoBrowserRejectsEverything | src/integrations/betting/automator.ts:41-45 | without a browser, navigation, login, bets and result checks reject with "browser not initialised" and issue nothing, and close does nothing |
| Automator.PlaceBetIgnoresMartingale | src/integrations/betting/automator.ts:104-110 | the three Martingale options have no effect on what `placeBet` does |
| Automator.PlaceBetEndsWithTheBet | src/integrations/betting/automator.ts:126-157 | a successful bet had a recognised bet type, ends with the five bet steps on that type's button with the amount, and leaves the automator logged in |
| Automator.LoginPhaseCallsFrom | src/integrations/betting/automator.ts:69-93 | the login step issues only the account probe and the login-form calls |
| Automator.ReachPhaseCallsFrom | src/integrations/betting/automator.ts:120-124 | reaching the betting page issues only the URL read and the navigation calls |
| Automator.BetPhaseCallsFrom | src/integrations/betting/automator.ts:126-155 | the bet step issues only the five bet calls of a recognised bet type, and nothing for an unknown one |
| Automator.PlaceBetCallsFrom | src/integrations/betting/automator.ts:104-162 | every call of `placeBet` belongs to its login step, its page-reaching step or its bet step |
| Automator.LoginPhaseTouchesNoBet | src/integrations/betting/automator.ts:79-93 | the login step clicks no bet control and enters no amount |
| Automator.ReachPhaseTouchesNoBet | src/integrations/betting/automator.ts:120-124 | reaching the betting page clicks no bet control and enters no amount |
| Automator.UnknownBetTypeCallIsHarmless | src/integrations/betting/automator.ts:138-139 | with an unknown bet type, no call of `placeBet` clicks a bet button or the confirm button, or enters an amount |
| Automator.UnknownBetTypePlacesNothing | src/integrations/betting/automator.ts:127-140 | an unknown bet type rejects, and no call it made touches a bet control; the type is checked only after login and navigation |
| Automator.PlaceBetLogsInOnlyWhenLoggedOut | src/integrations/betting/automator.ts:116-121 | a logged-in automator starts a bet by reading the URL; a logged-out one with credentials starts by probing for the account marker |
| Automator.PlaceBetNavigatesOnlyOffPage | src/integrations/betting/automator.ts:120-124 | once logged in, `placeBet` goes to the bet URL exactly when the current URL does not contain `futebol-studio-ao-vivo` |
| Automator.PlaceBetSucceedsIff | src/integrations/betting/automator.ts:104-162 | with a browser, `placeBet` resolves exactly when the login step resolves, the URL read succeeds, the page is the betting page or navigation succeeds, the bet type is recognised and all five bet calls succeed |
| Automator.AwaitPropagates | src/integrations/betting/automator.ts:143-160 | a chain of awaits resolves only when every call succeeded, and otherwise rejects with the call that threw, all earlier calls having succeeded |
| Automator.AfterPropagates | src/integrations/betting/automator.ts:104-160 | successful awaits in front of a step keep the way the step rejects |
| Automator.LoginPropagates | src/integrations/betting/automator.ts:59-102 | login rejects with its first failing call, or with its own error while no call has failed |
| Automator.ReachPropagates | src/integrations/betting/automator.ts:120-124 | reaching the betting page rejects with its first failing call |
| Automator.OnPagePropagates | src/integrations/betting/automator.ts:120-160 | the on-page part of `placeBet` rejects with its first failing call, or with the unknown-bet-type error while no call has failed |
| Automator.PlaceBetRejectsWithFirstFailure | src/integrations/betting/automator.ts:104-162 | `placeBet` rejects with the first call that threw, all earlier calls having succeeded, or else only with "browser not initialised", "credentials not configured" or the unknown-bet-type error, no call having failed |
| Automator.CheckResultSpec | src/integrations/betting/automator.ts:164-190 | a result check changes no field, and on success its first call is the probe for the result element |
| Automator.CheckResultClassifies | src/integrations/betting/automator.ts:170-185 | the result is pending exactly when there is no result element, a win exactly when the element has the `win` class, and a loss exactly when it does not |
| Automator.BettingAutomator.CheckBetResult | src/integrations/betting/automator.ts:164-190 | the calls and the outcome are those of `CheckResultSpec` |
| Automator.CloseSpec | src/integrations/betting/automator.ts:192-203 | close keeps the settings and succeeds exactly when no browser remains; closing a browser also logs out |
| Automator.CloseIdempotent | src/integrations/betting/automator.ts:192-198 | a second close after a successful one does nothing |
| Automator.BettingAutomator.Close | src/integrations/betting/automator.ts:192-203 | the new fields, the calls and the outcome are those of `CloseSpec` |
| TelegramClient.HasActionIffOccurs | src/integrations/telegram/client.ts:174-185 | a text requires action exactly when one of `Entrada:`, `Aposta:`, `Sinal:` or `Oportunidade:` occurs in it at some position |
| TelegramClient.HasAction | src/integrations/telegram/client.ts:174-185 | each of the four patterns is itself a text that requires action |
| TelegramClient.PatternMakesAction | src/integrations/telegram/client.ts:177-184 | any text containing one of the four patterns requires action, whatever surrounds it |
| TelegramClient.ShortTextHasNoAction | src/integrations/telegram/client.ts:177-184 | a text shorter than the shortest pattern never requires action |
| TelegramClient.PostOf | src/integrations/telegram/client.ts:102-106 | an update's message wins over its channel post, and there is no post only when it has neither |
| TelegramClient.IsListedType | src/integrations/telegram/client.ts:108 | the chat-type filter of `getChannels`; a private chat is never listed |
| TelegramClient.ListedChat | src/integrations/telegram/client.ts:100-108 | an update contributes its post's chat exactly when that chat is a channel, a group or a supergroup |
| TelegramClient.ChannelOf | src/integrations/telegram/client.ts:109-119 | a channel entry has the chat's id as decimal text, its non-empty title or `Canal <id>` as name, its username and type, is active and counts no messages |
| TelegramClient.ExtractChannels | src/integrations/telegram/client.ts:95-124 | the loop over the updates, with its map of seen ids, yields the channel list `ChannelsOf` defines |
| TelegramClient.ChannelsOf | src/integrations/telegram/client.ts:99-124 | each update adds at most one channel, so the list is no longer than the batch |
| TelegramClient.ChannelIdsDistinct | src/integrations/telegram/client.ts:111-112 | no id appears twice in the channel list |
| TelegramClient.ChannelsAreListedDefaults | src/integrations/telegram/client.ts:108-119 | every listed entry is an active channel, group or supergroup with no messages counted |
| TelegramClient.ListedAmongLast | src/integrations/telegram/client.ts:99-122 | some update of a batch lists an id exactly when an earlier update or the last one does |
| TelegramClient.ChannelIdsAreListedChats | src/integrations/telegram/client.ts:99-124 | an id is in the channel list exactly when some update of the batch lists a chat with that id |
| TelegramClient.ChannelsStep | src/integrations/telegram/client.ts:99-122 | one more update keeps the list so far and adds at most one channel at its end |
| TelegramClient.ChannelsGrowByAppending | src/integrations/telegram/client.ts:111-124 | the list built from a prefix of the batch is a prefix of the whole list, so channels appear in order of first appearance |
| TelegramClient.FirstOccurrenceWins | src/integrations/telegram/client.ts:111-120 | each channel's entry comes from the first update that lists its id; later chats with the same id are ignored |
| TelegramClient.MessageOf | src/integrations/telegram/client.ts:155-163 | a message has the post's id, chat id and date, the sender's first name or else the chat title, the text or an empty content, requires action exactly when its content does, and is not yet acted on |
| TelegramClient.PostIn | src/integrations/telegram/client.ts:146-154 | an update contributes a post exactly when its message or channel post belongs to the requested chat |
| TelegramClient.ExtractMessages | src/integrations/telegram/client.ts:140-167 | the loop over the updates, cut by `slice(0, limit)`, yields the chat's messages in update order as `MessagesOf` defines |
| TelegramClient.MessagesOf | src/integrations/telegram/client.ts:142-165 | each update adds at most one message, so the list is no longer than the batch |
| TelegramClient.MessagesOfAppend | src/integrations/telegram/client.ts:142-165 | the messages of two batches are those of the first followed by those of the second |
| TelegramClient.MessagesBelongToChannel | src/integrations/telegram/client.ts:154-163 | every extracted message belongs to the requested chat and is not yet acted on |
| TelegramClient.MessagesComplete | src/integrations/telegram/client.ts:142-165 | every post of the requested chat yields a message |
| TelegramClient.ExtractedWithinLimit | src/integrations/telegram/client.ts:167 | a non-negative limit bounds the number of messages returned |
| TelegramClient.TestOutcome | src/integrations/telegram/client.ts:37-57 | the test connects exactly when the token is non-empty and the reply's `ok` flag is set; an empty token fails without a request |
| TelegramClient.Client.constructor | src/integrations/telegram/client.ts:27-30 | the base URL is the API address followed by the token, and the client is not connected |
| TelegramClient.Client.SetToken | src/integrations/telegram/client.ts:32-35 | the token and the base URL change together; the connection flag is left as it was |
| TelegramClient.Client.TestConnection | src/integrations/telegram/client.ts:37-57 | the outcome is `TestOutcome`, the connection flag records it, and `/getMe` is requested exactly when the token is non-empty |
| TelegramHooks.Storage.constructor | src/integrations/telegram/hooks.ts:106 | empty local storage holds no token and, as the `|| '[]'` defaults read it, no channels and no messages |
| TelegramHooks.ConnectOutcome | src/integrations/telegram/hooks.ts:39-67 | `connect` succeeds exactly when the new token is non-empty and the test succeeds; an empty token is refused |
| TelegramHooks.ConnectionHook.constructor | src/integrations/telegram/hooks.ts:6-8 | the hook starts with no token and not connected |
| TelegramHooks.ConnectionHook.RestoreSavedToken | src/integrations/telegram/hooks.ts:13-37 | a saved non-empty token is adopted by the hook and the client, which requests `getMe` once and sets its own flag to the test's outcome; a failed test is swallowed and leaves the hook's connection flag as it was; without a saved token nothing changes |
| TelegramHooks.ConnectionHook.Connect | src/integrations/telegram/hooks.ts:39-67 | the flag records the outcome; only success stores the token in the hook and in local storage; the client gets the new token even when the test fails, requests `getMe` once for a non-empty token, and sets its own flag to the outcome |
| TelegramHooks.ConnectionHook.Disconnect | src/integrations/telegram/hooks.ts:69-74 | the hook is disconnected, its token cleared and the saved token removed |
| TelegramHooks.FindById | src/integrations/telegram/hooks.ts:111 | a saved channel is found exactly when one with the id exists, and it is such a channel |
| TelegramHooks.Adopted | src/integrations/telegram/hooks.ts:110-118 | a fetched channel keeps its own id, name, username and type, and takes the active flag and message count of the saved channel with its id, or active and 0 without one |
| TelegramHooks.AdoptAll | src/integrations/telegram/hooks.ts:110-118 | the fetched channels are adopted one by one, in order |
| TelegramHooks.AdoptAllIds | src/integrations/telegram/hooks.ts:110-118 | adopting keeps the set of ids |
| TelegramHooks.AppendMissing | src/integrations/telegram/hooks.ts:121-125 | the saved-channel loop keeps the list built so far as a prefix and appends at most one entry per saved channel |
| TelegramHooks.AppendMissingIsKept | src/integrations/telegram/hooks.ts:121-125 | the saved-channel loop appends exactly the saved channels the reference definition `Kept` keeps |
| TelegramHooks.MergeChannels | src/integrations/telegram/hooks.ts:110-125 | the merged list starts with the fetched channels, each adopted from its saved entry, and adds at most the saved channels after them |
| TelegramHooks.KeptProperties | src/integrations/telegram/hooks.ts:121-125 | the kept channels are saved channels with unseen ids, no id is kept twice, and every saved channel with an unseen id has its id kept |
| TelegramHooks.MergeLayout | src/integrations/telegram/hooks.ts:110-125 | the merged list is the adopted fetched channels followed by the saved channels not among them |
| TelegramHooks.MergeLosesNoSavedChannel | src/integrations/telegram/hooks.ts:110-125 | every saved channel's id is in the merged list |
| TelegramHooks.FailedFetchKeepsSaved | src/integrations/telegram/hooks.ts:97-125 | when fetching fails the list continues empty, and the merge is exactly what the reference definition `Kept` keeps of the saved channels with no id seen yet |
| TelegramHooks.ChannelsHook.FetchChannels | src/integrations/telegram/hooks.ts:91-139 | the hook's channels and the saved channels become the merge of the fetched (or no) channels with the saved ones |
| TelegramHooks.SetActive | src/integrations/telegram/hooks.ts:143-156 | the channels with the id get the given flag and every other channel is unchanged |
| TelegramHooks.SetActiveProperties | src/integrations/telegram/hooks.ts:141-162 | setting the flag keeps every id in its place, gives every channel with the id the requested flag, and doing it again changes nothing |
| TelegramHooks.ChannelsHook.ToggleChannelActive | src/integrations/telegram/hooks.ts:141-162 | the hook and local storage both hold the channels with the flag set |
| TelegramHooks.WithoutId | src/integrations/telegram/hooks.ts:166 | exactly the channels with another id remain, and the list does not grow |
| TelegramHooks.ChannelsHook.RemoveChannel | src/integrations/telegram/hooks.ts:164-175 | the hook and local storage both hold the channels without the id |
| TelegramHooks.ActiveIds | src/integrations/telegram/hooks.ts:251-253 | the ids of the active channels, at most one per channel |
| TelegramHooks.ActiveIdsMembers | src/integrations/telegram/hooks.ts:251-253 | an id is among the active ids exactly when some active channel has it |
| TelegramHooks.OfChannels | src/integrations/telegram/hooks.ts:261-262 | the filter by channel id keeps no more messages than were stored |
| TelegramHooks.OfChannelsMembers | src/integrations/telegram/hooks.ts:261-262 | exactly the stored messages of the given channels are kept |
| TelegramHooks.NewestFirstPairwise | src/integrations/telegram/hooks.ts:263 | in a newest-first list every earlier message is at least as recent as every later one |
| TelegramHooks.InsertNewestFirst | src/integrations/telegram/hooks.ts:263 | inserting into a newest-first list keeps it newest first and adds exactly the message |
| TelegramHooks.SortNewestFirst | src/integrations/telegram/hooks.ts:263 | the sorted list is newest first and a permutation of its input |
| TelegramHooks.NoActiveChannelNoMessages | src/integrations/telegram/hooks.ts:255-280 | with no active channel the feed is empty |
| TelegramHooks.FeedNewestFirstWithinLimit | src/integrations/telegram/hooks.ts:261-264 | the feed is newest first and no longer than a non-negative limit |
| TelegramHooks.ChosenMessages | src/integrations/telegram/hooks.ts:249-264 | the chosen messages are newest first, no more than were stored, and no more than a non-negative limit |
| TelegramHooks.ChannelNameFor | src/integrations/telegram/hooks.ts:267-272 | a message is named after the first channel with its id, or `Canal Desconhecido` when no channel has that id |
| TelegramHooks.SelectMessages | src/integrations/telegram/hooks.ts:249-280 | with no active channel the feed is empty; it has no more entries than were stored nor than a non-negative limit, and every entry carries a channel name |
| TelegramHooks.ChosenFromActiveChannels | src/integrations/telegram/hooks.ts:261-264 | every chosen message is a stored message of an active channel |
| TelegramHooks.FeedMessagesNamedFromActiveChannels | src/integrations/telegram/hooks.ts:249-273 | every feed message is a stored message, apart from its added name, of an active channel, and it carries the name of the first channel with its id, so the `Canal Desconhecido` fallback is never used |
| TelegramHooks.MessagesHook.FetchMessages | src/integrations/telegram/hooks.ts:243-287 | the hook's messages and the result are the feed selected from local storage |
| TelegramHooks.MarkProcessed | src/integrations/telegram/hooks.ts:292-308 | the messages with the id are marked as acted on and every other message is unchanged |
| TelegramHooks.MarkProcessedProperties | src/integrations/telegram/hooks.ts:289-315 | marking clears no flag, marks every message with the id, leaves every other message unchanged, and marking again changes nothing |
| TelegramHooks.MessagesHook.MarkMessageAsProcessed | src/integrations/telegram/hooks.ts:289-315 | the hook's messages and the stored messages are both marked |
| BetRulesPage.NewRule | src/pages/BetRulesPage.tsx:81-88 | a new rule is active, has the id `rule-<now>`, and takes its name, trigger, bet type and amount from the form |
| BetRulesPage.Submit | src/pages/BetRulesPage.tsx:69-102 | a form without a name or a trigger changes nothing; otherwise the new rule is appended and the form reset to its defaults |
| BetRulesPage.SubmitAppendsOne | src/pages/BetRulesPage.tsx:90 | a valid submit adds exactly one active rule, at the end, and leaves the existing rules in place |
| BetRulesPage.ToggleRule | src/pages/BetRulesPage.tsx:104-110 | the rules with the id have their flag flipped and every other rule is unchanged |
| BetRulesPage.ToggleRuleTwice | src/pages/BetRulesPage.tsx:104-110 | toggling twice restores the rules |
| BetRulesPage.RemoveRule | src/pages/BetRulesPage.tsx:112-113 | exactly the rules with another id remain, and the list does not grow |
| BetRulesPage.HomeOptionIsPlaceable | src/pages/BetRulesPage.tsx:53-58 | the form's default bet type `Casa` is the first option and the automator places it on the home button |
| BetRulesPage.AwayOptionIsPlaceable | src/pages/BetRulesPage.tsx:174 | the option `Fora` is placed on the away button |
| BetRulesPage.DrawOptionIsPlaceable | src/pages/BetRulesPage.tsx:175 | the option `Empate` is placed on the draw button |
| TelegramPage.Connect | src/pages/TelegramPage.tsx:40-56 | an empty token changes nothing; any other token marks the page connected and changes nothing else |
| TelegramPage.NewChannel | src/pages/TelegramPage.tsx:69-74 | a new channel has the id `channel-<now>`, the name `Novo Canal (<url>)`, is active and has no messages |
| TelegramPage.AddChannel | src/pages/TelegramPage.tsx:58-82 | an empty URL changes nothing; otherwise one new channel is appended and the URL field cleared |
| TelegramPage.ToggleChannel | src/pages/TelegramPage.tsx:84-90 | the channels with the id have their flag flipped and every other channel is unchanged |
| TelegramPage.ToggleChannelTwice | src/pages/TelegramPage.tsx:84-90 | toggling twice restores the channels |
| TelegramPage.RemoveChannel | src/pages/TelegramPage.tsx:92-93 | exactly the channels with another id remain, and the list does not grow |
| TelegramPage.ActiveCount | src/pages/TelegramPage.tsx:236 | the footer never counts more active channels than there are channels |
| TelegramPage.ActiveCountAppend | src/pages/TelegramPage.tsx:236 | the active count of two lists is the sum of their counts |
| TelegramPage.AddChannelCounts | src/pages/TelegramPage.tsx:58-82 | a valid add raises both the channel count and the active count by one |
| TelegramMessages.TakeBetAction | src/components/dashboard/TelegramMessages.tsx:72-78 | the messages with the id are marked as bet on and every other message is unchanged |
| TelegramMessages.StatusLabel | src/components/dashboard/TelegramMessages.tsx:108-119 | only messages with an action have a status row, reading `Bet Placed` exactly when a bet was placed and `Action Required` otherwise |
| TelegramMessages.OffersPlaceBet | src/components/dashboard/TelegramMessages.tsx:108-129 | the Place Bet button shows only for a message with an action whose status row reads `Action Required` |
| TelegramMessages.OffersPlaceBetIff | src/components/dashboard/TelegramMessages.tsx:108-129 | the Place Bet button shows exactly for messages with an action and no bet yet, that is, exactly when the row reads `Action Required` |
| TelegramMessages.TakeBetActionProperties | src/components/dashboard/TelegramMessages.tsx:72-78 | after taking the action, no message with the id offers the button and those with an action read `Bet Placed`; no flag is cleared, other messages are untouched, and taking it again changes nothing |
| Electron.PlatformOf | src/hooks/useElectron.ts:55-66 | the browser fallback reports `win32`, `darwin`, `linux` or `unknown`, and nothing else |
| Electron.PlatformOrder | src/hooks/useElectron.ts:60-64 | each platform is reported exactly when its marker is the first of `win`, `mac`, `linux` found in the lower-cased user agent |
| Electron.PlatformIgnoresCase | src/hooks/useElectron.ts:60 | the platform does not depend on the letter case of the user agent |
| Electron.WindowsWins | src/hooks/useElectron.ts:61 | a user agent naming `Win` is Windows even when it also names another system |
| Electron.LastSegment | src/hooks/useElectron.ts:34 | the download name contains no `/`, is a suffix of the path, and is preceded by a `/` whenever it is shorter than the path |
| Electron.LastSegmentOfName | src/hooks/useElectron.ts:34 | a path without `/` is its own download name |
| Electron.LastSegmentAfterSlash | src/hooks/useElectron.ts:34 | a name without `/` after a directory ending in `/` is the download name |
| Electron.LastSegmentOfJoin | src/hooks/useElectron.ts:34 | joining a directory and a file name with `/` gives back the file name as the download name |
| Electron.SaveFileFallback | src/hooks/useElectron.ts:25-41 | saving outside Electron always reports success, and downloads under the path's last segment |
| Electron.OpenFileFallback | src/hooks/useElectron.ts:44-52 | opening outside Electron always reports failure |
| Text.ContainsIffOccurs | src/integrations/betting/automator.ts:122 | `includes` holds exactly when the pattern occurs at some position |
| Text.Contains | src/integrations/telegram/client.ts:184 | `includes` holds for every prefix of the text, and never for a pattern longer than the text |
| Text.Decimal | src/integrations/betting/automator.ts:149 | `toString` of an integer is a non-empty string without `/` that starts with `-` exactly when the number is negative |
| Text.NatDecimalInjective | src/integrations/telegram/client.ts:109 | different natural numbers have different digit strings |
| Text.DecimalInjective | src/integrations/telegram/client.ts:109 | `toString` is injective on integers, so chats with different ids get different channel ids |
| Text.ToLower | src/integrations/betting/automator.ts:128 | lower-casing keeps the length and lower-cases each character |
| Lists.Filter | src/integrations/telegram/hooks.ts:166 | `filter` returns no more elements than it was given, and each of them passes the test |
| Lists.FilterMembers | src/integrations/telegram/hooks.ts:166 | `filter` keeps exactly the elements its test accepts |
| Lists.FilterAppend | src/pages/BetRulesPage.tsx:113 | filtering the two parts of a list and joining the results is filtering the whole list, so the remaining elements keep their relative order |
| Lists.FilterKeepsAll | src/pages/TelegramPage.tsx:93 | a `filter` whose test accepts every element changes nothing, so removing an id no entry has changes nothing |
| Lists.FilterTwice | src/integrations/telegram/hooks.ts:164-175 | filtering twice with the same test is filtering once, so removing the same id twice is removing it once |
| Lists.SliceTo | src/integrations/telegram/hooks.ts:264 | `slice(0, n)` keeps the first n elements, or all but the last -n when n is negative |

## Left out

- The `useBettingAutomator` React hook (`automator.ts` lines 207-275) is not part of this model. It only forwards to the class and keeps loading and error flags.
- `browser.ts`, the Playwright wrapper, is not part of this model. Each wrapper call is one `Call` whose failure the `Env` parameter decides. The page is fixed for the duration of one operation, so the model does not capture a page that changes between two calls of the same operation.
- Network requests (`axios`) and `getUpdates` are not modelled. The updates are a parameter of the extraction loops, and the `getMe` reply is a parameter of the connection test. The `isConnected` preamble of `getChannels` and `getMessages`, which re-tests the connection, is left out with them.
- Local storage is a `Storage` object holding typed values. JSON encoding and decoding and malformed stored JSON are not modelled.
- Dates are integers: a message's ISO timestamp is its Unix date. The newest-first sort compares these integers, so the comparator's behaviour on invalid dates (NaN) is not modelled.
- `Date.now()`, used for new rule and channel ids, is a parameter `now`.
- `BetRulesPage.NewRule`: `Number(formData.betAmount)` is taken as an already parsed integer. Non-numeric input (NaN) and fractional amounts are not modelled. The same holds for `amount.toString()` in `placeBet`.
- `updateChannels` in `hooks.ts` is not modelled. It assigns random message counts.
- `toggleChannelActive` writes local storage from the `channels` value captured when the callback was created. The model uses the current list for both the hook and local storage, so a stale captured list is not modelled.
- Loading flags, error strings, toasts and console logging are not modelled.
- `toLowerCase` is modelled on ASCII letters only. Unicode case mapping is not modelled.
- `TelegramHooks.SortNewestFirst`: stable, like `Array.prototype.sort`, but stability is not stated as a property.
- Page rendering is not modelled, beyond the message row's status label and button and the channel footer's count. Neither is the settings, history or dashboard layout.
- The Electron main and preload processes are not part of this model. Neither is the Electron branch of `useElectron`, which forwards to the preload bridge.
- Martingale progression, matching signals against rules, and bet limits appear in the application's description but not in the code. `placeBet` ignores the Martingale options, which `Automator.PlaceBetIgnoresMartingale` proves.
