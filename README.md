# Home Connect binding for openHAB — a verified model of its core

The binding connects openHAB to Home Connect appliances: an oven, a washer, a dryer, a
dishwasher, a coffee maker and a fridge/freezer. The project models four parts of it:

- **The API client.** It keeps an OAuth token, a list of event listeners and one streaming
  (server-sent events) connection per appliance. Its callbacks fan each frame out to the
  listeners, and a 401 makes it fetch a fresh token.
- **The thing handlers.** For each appliance, tables map event keys to event handlers and
  channel ids to channel-update handlers. The handlers turn API values into channel states:
  the door and power rules, labels via `mapStringType`, and program options.
- **The older dishwasher handler.** It does the same job with no tables.
- **The two discovery services.** They report the appliances that are not things yet.

Some parts are pure decision logic in the Java source: credentials, response codes, labels
and JSON mapping. They are datatypes, functions and lemmas here.

The rest are objects whose fields the source updates in place:

- `ApiClient` is a class. Its registry is exposed as the value `State()`.
- `ThingHandler` and `DishwasherHandler` are classes. Their fields are exposed as `Snap()`.
- `DiscoveryService` is a class.

Every method of these classes is proved against a specification function of its old state.
The lemmas about those functions carry the invariants and effects.

Each Java lambda the handlers register becomes a constructor of `EventHandler` or
`UpdateHandler`. What running it does is the function `RunEvent` or `RunUpdate`.

The API getters a handler calls are given as an `ApplianceView`: what each getter answers,
or that it threw. The token endpoint's answer is a `GrantResult` parameter. No I/O is modelled.

Modules, one per file: `Wrappers`, `Text`, `Numbers`, `Constants`, `Model` (the JSON model
classes and mappers), `Credentials`, `Client`, `Labels`, `Channels`, `Handlers`,
`ThingHandlers`, `LegacyDishwasher`, `Discovery`.

Two behaviours of the code are worth stating plainly:

- **401 on a stream.** The retry callback of the event stream
  (`addons/binding/org.openhab.binding.homeconnect/src/main/java/org/openhab/binding/homeconnect/internal/client/HomeConnectApiClient.java:314-335`)
  clears the token and re-registers, and the transport may call it again without bound. The
  model has one step of it (`Client.RetryError`). The step returns whether the transport retries.
- **Thing types.** The current discovery service puts the raw appliance type reported by the
  API, not the thing type id, into the ThingUID
  (`addons/binding/org.openhab.binding.homeconnect/src/main/java/org/openhab/binding/homeconnect/internal/discovery/HomeConnectDiscoveryService.java:102-106`).
  The model does the same.

## Model

| member | source | states |
|---|---|---|
| Text.FoldCase | addons/binding/org.openhab.binding.homeconnect/src/main/java/org/openhab/binding/homeconnect/internal/client/model/Data.java:46-48 | upper-case ASCII letters fold to lower case, every other character is kept |
| Text.EqualsIgnoreCaseSymmetric | addons/binding/org.openhab.binding.homeconnect/src/main/java/org/openhab/binding/homeconnect/internal/discovery/HomeConnectDiscoveryService.java:87-100 | equalsIgnoreCase is symmetric |
| Text.EqualsIgnoreCaseTransitive | addons/binding/org.openhab.binding.homeconnect/src/main/java/org/openhab/binding/homeconnect/internal/discovery/HomeConnectDiscoveryService.java:87-100 | equalsIgnoreCase is transitive |
| Text.RemoveAll | addons/binding/org.openhab.binding.homeconnect/src/main/java/org/openhab/binding/homeconnect/handler/HomeConnectWasherHandler.java:168-190 | String.replace(target, "") never lengthens the text |
| Text.RemoveAllAbsent | addons/binding/org.openhab.binding.homeconnect/src/main/java/org/openhab/binding/homeconnect/handler/HomeConnectWasherHandler.java:168-190 | a text without the target comes back unchanged |
| Text.RemoveAllPrefix | addons/binding/org.openhab.binding.homeconnect/src/main/java/org/openhab/binding/homeconnect/handler/HomeConnectWasherHandler.java:168-190 | a text starting with the target loses that prefix, then the rest is processed |
| Text.RemoveAllSinglePass | addons/binding/org.openhab.binding.homeconnect/src/main/java/org/openhab/binding/homeconnect/handler/HomeConnectWasherHandler.java:168-171 | String.replace is one left-to-right pass: removing "ab" from "aabb" leaves "ab", an occurrence formed by the characters around the deleted one |
| Text.TrimStart | addons/binding/org.openhab.binding.homeconnect/src/main/java/org/openhab/binding/homeconnect/handler/AbstractHomeConnectThingHandler.java:244-256 | the result is a suffix of the text, does not start with white space, and only white space was dropped |
| Text.TrimEnd | addons/binding/org.openhab.binding.homeconnect/src/main/java/org/openhab/binding/homeconnect/handler/AbstractHomeConnectThingHandler.java:244-256 | the result is a prefix of the text, does not end with white space, and only white space was dropped |
| Text.LastIndexOf | addons/binding/org.openhab.binding.homeconnect/src/main/java/org/openhab/binding/homeconnect/handler/AbstractHomeConnectThingHandler.java:245 | -1 or the position of the character, with no later occurrence |
| Numbers.ParseJavaInt | addons/binding/org.openhab.binding.homeconnect/src/main/java/org/openhab/binding/homeconnect/internal/client/model/Data.java:42-44 | Integer.valueOf succeeds exactly on an optional sign followed by at least one digit whose signed value lies in the int range, and then returns that signed value |
| Numbers.NatToString | addons/binding/org.openhab.binding.homeconnect/src/main/java/org/openhab/binding/homeconnect/internal/handler/HomeConnectFridgeFreezerHandler.java:101-104 | String.valueOf writes a non-empty digit string |
| Numbers.NatToStringValue | addons/binding/org.openhab.binding.homeconnect/src/main/java/org/openhab/binding/homeconnect/internal/handler/HomeConnectFridgeFreezerHandler.java:101-104 | the digits written for n have the value n |
| Numbers.ParseIntToString | addons/binding/org.openhab.binding.homeconnect/src/main/java/org/openhab/binding/homeconnect/internal/handler/HomeConnectFridgeFreezerHandler.java:101-104 | Integer.valueOf reads back every int that String.valueOf writes |
| Numbers.Wrap32 | addons/binding/org.openhab.binding.homeconnect/src/main/java/org/openhab/binding/homeconnect/internal/handler/HomeConnectFridgeFreezerHandler.java:102 | the result is in the int range, equals x when x fits, and is congruent to x modulo 2^32 |
| Numbers.TruncateToInt | addons/binding/org.openhab.binding.homeconnect/src/main/java/org/openhab/binding/homeconnect/internal/handler/HomeConnectFridgeFreezerHandler.java:102 | truncates toward zero: within one of q, on the side of zero |
| Numbers.JavaIntValue | addons/binding/org.openhab.binding.homeconnect/src/main/java/org/openhab/binding/homeconnect/internal/handler/HomeConnectFridgeFreezerHandler.java:102 | intValue always gives an int in range |
| Model.IntValue | addons/binding/org.openhab.binding.homeconnect/src/main/java/org/openhab/binding/homeconnect/internal/client/model/Data.java:42-44 | 0 for null, otherwise the value Integer.valueOf reads, within the int range |
| Model.BoolValue | addons/binding/org.openhab.binding.homeconnect/src/main/java/org/openhab/binding/homeconnect/internal/client/model/Data.java:46-48 | true exactly for a non-null value of four characters spelling t, r, u, e in either case (Boolean.valueOf) |
| Model.IntValueOfWritten | addons/binding/org.openhab.binding.homeconnect/src/main/java/org/openhab/binding/homeconnect/internal/client/model/Event.java:41-43 | an int written as text is read back as that int |
| Model.LenientField | addons/binding/org.openhab.binding.homeconnect/src/main/java/org/openhab/binding/homeconnect/internal/client/HomeConnectApiClient.java:718-735 | a value is non-null exactly when the JSON member holds a primitive |
| Model.DecodeEvent | addons/binding/org.openhab.binding.homeconnect/src/main/java/org/openhab/binding/homeconnect/internal/client/HomeConnectApiClient.java:718-735 | an event's value and key are null exactly when the item's are absent |
| Model.DecodeOption | addons/binding/org.openhab.binding.homeconnect/src/main/java/org/openhab/binding/homeconnect/internal/client/HomeConnectApiClient.java:658-680 | an option's value and key are null exactly when the item's are absent |
| Model.EventsOf | addons/binding/org.openhab.binding.homeconnect/src/main/java/org/openhab/binding/homeconnect/internal/client/HomeConnectApiClient.java:718-735 | a frame decodes iff every item is readable, into one event per item, in order |
| Model.ProgramOf | addons/binding/org.openhab.binding.homeconnect/src/main/java/org/openhab/binding/homeconnect/internal/client/HomeConnectApiClient.java:658-680 | a program decodes iff its key is present and all options are readable, one option per item, in order |
| Model.MapToEvents | addons/binding/org.openhab.binding.homeconnect/src/main/java/org/openhab/binding/homeconnect/internal/client/HomeConnectApiClient.java:718-735 | the loop over the items array yields exactly EventsOf |
| Model.MapToProgram | addons/binding/org.openhab.binding.homeconnect/src/main/java/org/openhab/binding/homeconnect/internal/client/HomeConnectApiClient.java:658-680 | the loop over the options array yields exactly ProgramOf |
| Credentials.ChooseFlow | addons/binding/org.openhab.binding.homeconnect/src/main/java/org/openhab/binding/homeconnect/internal/client/HomeConnectApiClient.java:501-522 | configuration error iff no refresh token outside the simulator; authorization code grant iff simulator without token; refresh grant iff refresh token without token; nothing iff a token is cached |
| Credentials.CheckCredentials | addons/binding/org.openhab.binding.homeconnect/src/main/java/org/openhab/binding/homeconnect/internal/client/HomeConnectApiClient.java:501-522 | each outcome of checkCredentials (configuration error, communication error, ready) with its exact condition and the token it leaves |
| Credentials.CheckCredentialsStable | addons/binding/org.openhab.binding.homeconnect/src/main/java/org/openhab/binding/homeconnect/internal/client/HomeConnectApiClient.java:501-522 | once a non-empty token is cached, a second check runs no grant and changes nothing |
| Credentials.ClassifyResponse | addons/binding/org.openhab.binding.homeconnect/src/main/java/org/openhab/binding/homeconnect/internal/client/HomeConnectApiClient.java:529-549 | invalid token iff 401 and 401 not accepted; accepted iff the code is accepted; otherwise a failure carrying the code |
| Credentials.TokenAfterResponse | addons/binding/org.openhab.binding.homeconnect/src/main/java/org/openhab/binding/homeconnect/internal/client/HomeConnectApiClient.java:532-539 | the token is cleared exactly when the status signals an invalid token |
| Credentials.GetProgramAttempt | addons/binding/org.openhab.binding.homeconnect/src/main/java/org/openhab/binding/homeconnect/internal/client/HomeConnectApiClient.java:400-428 | found iff ready, 200 and a decodable program; no program for an I/O failure or 404; retry for 401; a communication error for any other status |
| Credentials.IsRemoteFlagIsBoolValue | addons/binding/org.openhab.binding.homeconnect/src/main/java/org/openhab/binding/homeconnect/internal/client/HomeConnectApiClient.java:225-249 | isRemoteControlStartAllowed / isRemoteControlActive are set exactly when Data.getValueAsBoolean holds for the fetched status |
| Client.Listener.constructor | addons/binding/org.openhab.binding.homeconnect/src/main/java/org/openhab/binding/homeconnect/handler/AbstractHomeConnectThingHandler.java:131-161 | a listener bound to the thing's haId |
| Client.Initial | addons/binding/org.openhab.binding.homeconnect/src/main/java/org/openhab/binding/homeconnect/internal/client/HomeConnectApiClient.java:78-101 | a new client has no token, no listeners and no connections, and satisfies the registry invariants |
| Client.RemoveFirst | addons/binding/org.openhab.binding.homeconnect/src/main/java/org/openhab/binding/homeconnect/internal/client/HomeConnectApiClient.java:361-376 | ArrayList.remove drops exactly one occurrence (multiset difference) and leaves a list without it unchanged |
| Client.RemoveFirstAtFirstOccurrence | addons/binding/org.openhab.binding.homeconnect/src/main/java/org/openhab/binding/homeconnect/internal/client/HomeConnectApiClient.java:361-376 | for a listener on the list, the result is the list cut around the first position holding it, and no earlier position holds it |
| Client.Register | addons/binding/org.openhab.binding.homeconnect/src/main/java/org/openhab/binding/homeconnect/internal/client/HomeConnectApiClient.java:265-354 | the listener is always appended; a connection is opened only when the haId has none and credentials are ready; the connection map is otherwise unchanged |
| Client.RegisterPreserves | addons/binding/org.openhab.binding.homeconnect/src/main/java/org/openhab/binding/homeconnect/internal/client/HomeConnectApiClient.java:265-354 | registration keeps the connection invariants, and keeps every listener covered when credentials succeed |
| Client.RegisterFailureUncovers | addons/binding/org.openhab.binding.homeconnect/src/main/java/org/openhab/binding/homeconnect/internal/client/HomeConnectApiClient.java:265-354 | a failed credential check leaves a registered listener without a connection |
| Client.Unregister | addons/binding/org.openhab.binding.homeconnect/src/main/java/org/openhab/binding/homeconnect/internal/client/HomeConnectApiClient.java:361-376 | the haId's connection is closed and dropped exactly when its last listener goes; other entries stay |
| Client.UnregisterPreserves | addons/binding/org.openhab.binding.homeconnect/src/main/java/org/openhab/binding/homeconnect/internal/client/HomeConnectApiClient.java:361-376 | unregistering keeps the connection invariants, coverage and the no-orphan property |
| Client.Disposed | addons/binding/org.openhab.binding.homeconnect/src/main/java/org/openhab/binding/homeconnect/internal/client/HomeConnectApiClient.java:381-386 | dispose leaves no listeners and no connections, closes every open connection and keeps the token |
| Client.MatchingMember | addons/binding/org.openhab.binding.homeconnect/src/main/java/org/openhab/binding/homeconnect/internal/client/HomeConnectApiClient.java:284-300 | a listener is among the matches iff it is registered for the haId |
| Client.MatchingAppend | addons/binding/org.openhab.binding.homeconnect/src/main/java/org/openhab/binding/homeconnect/internal/client/HomeConnectApiClient.java:284-300 | filtering the listeners keeps list order |
| Client.ForEventIsMatching | addons/binding/org.openhab.binding.homeconnect/src/main/java/org/openhab/binding/homeconnect/internal/client/HomeConnectApiClient.java:284-300 | one event goes to exactly the matching listeners, in list order |
| Client.FanOutMembers | addons/binding/org.openhab.binding.homeconnect/src/main/java/org/openhab/binding/homeconnect/internal/client/HomeConnectApiClient.java:284-300 | a frame reaches a listener with an event iff the event is in the frame and the listener listens to the haId |
| Client.FanOutAppend | addons/binding/org.openhab.binding.homeconnect/src/main/java/org/openhab/binding/homeconnect/internal/client/HomeConnectApiClient.java:284-300 | all calls for an earlier event precede the calls for a later one |
| Client.RegisterIntoEmpty | addons/binding/org.openhab.binding.homeconnect/src/main/java/org/openhab/binding/homeconnect/internal/client/HomeConnectApiClient.java:265-354 | registering into an empty client with usable credentials opens exactly the listener's connection |
| Client.ResurrectionAsWritten | addons/binding/org.openhab.binding.homeconnect/src/main/java/org/openhab/binding/homeconnect/internal/client/HomeConnectApiClient.java:314-335 | a listener unregistered while another listens to the same appliance is put back on the list by a 401 on the connection it opened |
| Client.ResurrectionStep | addons/binding/org.openhab.binding.homeconnect/src/main/java/org/openhab/binding/homeconnect/internal/client/HomeConnectApiClient.java:314-335 | for any registry whose list lacks the connection's owner, the 401 step as written appends the owner again |
| Client.RetryErrorAsWrittenEffect | addons/binding/org.openhab.binding.homeconnect/src/main/java/org/openhab/binding/homeconnect/internal/client/HomeConnectApiClient.java:314-335 | the step as written: a status other than 401 only asks to retry; a 401 never retries and takes the token of the credential check; a failed check changes only the token; a successful one moves the owner to the end of the list (RemoveFirst then append), gives its haId a new connection with the next serial and keeps every other haId's connection |
| Client.RetryError | addons/binding/org.openhab.binding.homeconnect/src/main/java/org/openhab/binding/homeconnect/internal/client/HomeConnectApiClient.java:314-335 | the corrected step never changes the listener list; the transport retries iff the status is not 401, and then nothing changes |
| Client.RetryErrorPreserves | addons/binding/org.openhab.binding.homeconnect/src/main/java/org/openhab/binding/homeconnect/internal/client/HomeConnectApiClient.java:314-335 | after a 401 the client holds a new connection for the haId iff some listener still wants it, and keeps its invariants |
| Client.ApiClient.constructor | addons/binding/org.openhab.binding.homeconnect/src/main/java/org/openhab/binding/homeconnect/internal/client/HomeConnectApiClient.java:78-101 | the new client's state is Initial |
| Client.ApiClient.CheckCredentials | addons/binding/org.openhab.binding.homeconnect/src/main/java/org/openhab/binding/homeconnect/internal/client/HomeConnectApiClient.java:501-522 | only the token changes, to what CheckCredentials gives |
| Client.ApiClient.RegisterEventListener | addons/binding/org.openhab.binding.homeconnect/src/main/java/org/openhab/binding/homeconnect/internal/client/HomeConnectApiClient.java:265-354 | the new state and outcome are those of Register |
| Client.ApiClient.UnregisterEventListener | addons/binding/org.openhab.binding.homeconnect/src/main/java/org/openhab/binding/homeconnect/internal/client/HomeConnectApiClient.java:361-376 | the new state is that of Unregister |
| Client.ApiClient.Dispose | addons/binding/org.openhab.binding.homeconnect/src/main/java/org/openhab/binding/homeconnect/internal/client/HomeConnectApiClient.java:381-386 | the new state is Disposed of the old one |
| Client.ApiClient.OnMessage | addons/binding/org.openhab.binding.homeconnect/src/main/java/org/openhab/binding/homeconnect/internal/client/HomeConnectApiClient.java:284-300 | a keep-alive or unreadable frame dispatches nothing; otherwise the calls are FanOut of the decoded events to the connection's haId |
| Client.ApiClient.OnPreRetry | addons/binding/org.openhab.binding.homeconnect/src/main/java/org/openhab/binding/homeconnect/internal/client/HomeConnectApiClient.java:343-350 | onReconnect reaches exactly the matching listeners, in order; the request is handed back unchanged |
| Client.ApiClient.OnRetryError | addons/binding/org.openhab.binding.homeconnect/src/main/java/org/openhab/binding/homeconnect/internal/client/HomeConnectApiClient.java:314-335 | the new state and the retry answer are those of RetryError |
| Client.ApiClient.GetActiveProgram | addons/binding/org.openhab.binding.homeconnect/src/main/java/org/openhab/binding/homeconnect/internal/client/HomeConnectApiClient.java:400-428 | getProgram on the active-program path, to which getActiveProgram (HomeConnectApiClient.java:251-253) delegates: one attempt with credentials checked, the reply classified as in GetProgramAttempt, and a 401 clears the token |
| Labels.Label | addons/binding/org.openhab.binding.homeconnect/src/main/java/org/openhab/binding/homeconnect/handler/AbstractHomeConnectThingHandler.java:244-256 | a key without a '.' after its first character comes back as is; otherwise the trimmed, spaced last segment |
| Labels.JoinSplit | addons/binding/org.openhab.binding.homeconnect/src/main/java/org/openhab/binding/homeconnect/handler/AbstractHomeConnectThingHandler.java:248-252 | splitting at the boundaries and appending " " + word equals inserting a space before each boundary |
| Labels.SpacedOnlyAddsSpaces | addons/binding/org.openhab.binding.homeconnect/src/main/java/org/openhab/binding/homeconnect/handler/AbstractHomeConnectThingHandler.java:248-252 | spacing adds nothing but spaces to the segment |
| Labels.LabelOfLastSegment | addons/binding/org.openhab.binding.homeconnect/src/main/java/org/openhab/binding/homeconnect/handler/AbstractHomeConnectThingHandler.java:244-256 | only the last segment of the key decides the label |
| Labels.MapStringType | addons/binding/org.openhab.binding.homeconnect/src/main/java/org/openhab/binding/homeconnect/handler/AbstractHomeConnectThingHandler.java:244-256 | the loop over the split words computes exactly Label |
| Labels.LabelEco50 | addons/binding/org.openhab.binding.homeconnect/src/main/java/org/openhab/binding/homeconnect/handler/AbstractHomeConnectThingHandler.java:237-239 | "Dishcare.Dishwasher.Program.Eco50" is labelled "Eco50" |
| Labels.LabelDelayedStart | addons/binding/org.openhab.binding.homeconnect/src/main/java/org/openhab/binding/homeconnect/handler/AbstractHomeConnectThingHandler.java:237-239 | "BSH.Common.EnumType.OperationState.DelayedStart" is labelled "Delayed Start" |
| Labels.WasherTemperature | addons/binding/org.openhab.binding.homeconnect/src/main/java/org/openhab/binding/homeconnect/handler/HomeConnectWasherHandler.java:168-178 | a GC value is the text after the prefix, with later occurrences of the prefix removed, followed by the degree sign and no longer than the value without its prefix plus that sign; a Ul value is the label of the text after its prefix; any other value is its generic label |
| Labels.WasherSpinSpeed | addons/binding/org.openhab.binding.homeconnect/src/main/java/org/openhab/binding/homeconnect/handler/HomeConnectWasherHandler.java:180-190 | an RPM or Ul value is the text after that prefix with later occurrences of the prefix removed, shorter than the value by at least the prefix; any other value is its generic label |
| Labels.WasherTemperatureCelsius | addons/binding/org.openhab.binding.homeconnect/src/main/java/org/openhab/binding/homeconnect/handler/HomeConnectWasherHandler.java:168-171 | a GC temperature shows its number followed by °C |
| Labels.WasherTemperatureNamed | addons/binding/org.openhab.binding.homeconnect/src/main/java/org/openhab/binding/homeconnect/handler/HomeConnectWasherHandler.java:173-175 | a Ul temperature shows the label of the rest |
| Labels.WasherSpinSpeedVerbatim | addons/binding/org.openhab.binding.homeconnect/src/main/java/org/openhab/binding/homeconnect/handler/HomeConnectWasherHandler.java:180-188 | both spin-speed prefixes show the rest verbatim |
| Channels.ThingChannel | addons/binding/org.openhab.binding.homeconnect/src/main/java/org/openhab/binding/homeconnect/handler/AbstractHomeConnectThingHandler.java:185-187 | the corrected lookup finds a channel iff the thing has it |
| Channels.ThingChannelAsWritten | addons/binding/org.openhab.binding.homeconnect/src/main/java/org/openhab/binding/homeconnect/handler/AbstractHomeConnectThingHandler.java:185-187 | Optional.of finds a channel iff the thing has it, and throws otherwise |
| Channels.ThingChannelDiscrepancy | addons/binding/org.openhab.binding.homeconnect/src/main/java/org/openhab/binding/homeconnect/handler/AbstractHomeConnectThingHandler.java:185-187 | the written lookup agrees with the corrected one on present channels and throws on missing ones |
| Channels.ElapsedChannelMissing | addons/binding/org.openhab.binding.homeconnect/src/main/java/org/openhab/binding/homeconnect/handler/AbstractHomeConnectThingHandler.java:289-294 | a thing without an elapsed-time channel makes the written lookup throw |
| Channels.SetChannel | addons/binding/org.openhab.binding.homeconnect/src/main/java/org/openhab/binding/homeconnect/handler/AbstractHomeConnectThingHandler.java:289-336 | only a channel the thing has is written |
| Channels.NullChannelsEffect | addons/binding/org.openhab.binding.homeconnect/src/main/java/org/openhab/binding/homeconnect/handler/HomeConnectOvenHandler.java:180-185 | exactly the listed channels the thing has become NULL; everything else is kept |
| Channels.ResetProgramEffect | addons/binding/org.openhab.binding.homeconnect/src/main/java/org/openhab/binding/homeconnect/handler/HomeConnectOvenHandler.java:180-185 | resetProgramStateChannels touches only the appliance's program channels the thing has |
| Channels.ResetAllEffect | addons/binding/org.openhab.binding.homeconnect/src/main/java/org/openhab/binding/homeconnect/handler/HomeConnectOvenHandler.java:187-194 | every channel but power becomes NULL, nothing else changes |
| Channels.Switch | addons/binding/org.openhab.binding.homeconnect/src/main/java/org/openhab/binding/homeconnect/handler/AbstractHomeConnectThingHandler.java:317-322 | ON iff the flag |
| Channels.DoorState | addons/binding/org.openhab.binding.homeconnect/src/main/java/org/openhab/binding/homeconnect/handler/AbstractHomeConnectThingHandler.java:303-308 | OPEN exactly for the open value, otherwise CLOSED |
| Channels.PowerState | addons/binding/org.openhab.binding.homeconnect/src/main/java/org/openhab/binding/homeconnect/handler/AbstractHomeConnectThingHandler.java:296-301 | ON exactly for the on value, otherwise OFF |
| Channels.LabelState | addons/binding/org.openhab.binding.homeconnect/src/main/java/org/openhab/binding/homeconnect/handler/AbstractHomeConnectThingHandler.java:310-315 | NULL iff no value, otherwise the label |
| Channels.RemainingTime | addons/binding/org.openhab.binding.homeconnect/src/main/java/org/openhab/binding/homeconnect/handler/AbstractHomeConnectThingHandler.java:324-329 | NULL iff 0 seconds, otherwise the seconds (a quantity or a number) |
| Channels.ProgramProgress | addons/binding/org.openhab.binding.homeconnect/src/main/java/org/openhab/binding/homeconnect/handler/AbstractHomeConnectThingHandler.java:331-336 | NULL iff 100 percent, otherwise the percentage |
| Handlers.EventRegistrations | addons/binding/org.openhab.binding.homeconnect/src/main/java/org/openhab/binding/homeconnect/handler/AbstractHomeConnectThingHandler.java:165-167 | every registerEventHandler call of every appliance pairs a key with a handler meant for it: the handler reports that event, on the channel the key belongs to |
| Handlers.OvenEvents | addons/binding/org.openhab.binding.homeconnect/src/main/java/org/openhab/binding/homeconnect/handler/HomeConnectOvenHandler.java:43-104 | each event key the oven registers is paired with the handler for that event |
| Handlers.WasherEvents | addons/binding/org.openhab.binding.homeconnect/src/main/java/org/openhab/binding/homeconnect/handler/HomeConnectWasherHandler.java:38-82 | each event key the washer registers is paired with the handler for that event |
| Handlers.DryerEvents | addons/binding/org.openhab.binding.homeconnect/src/main/java/org/openhab/binding/homeconnect/internal/handler/HomeConnectDryerHandler.java:37-76 | each event key the dryer registers is paired with the handler for that event |
| Handlers.DishwasherEvents | addons/binding/org.openhab.binding.homeconnect/src/main/java/org/openhab/binding/homeconnect/internal/handler/HomeConnectDishwasherHandler.java:43-79 | each event key the dishwasher registers is paired with the handler for that event |
| Handlers.CoffeeMakerEvents | addons/binding/org.openhab.binding.homeconnect/src/main/java/org/openhab/binding/homeconnect/internal/handler/HomeConnectCoffeeMakerHandler.java:37-69 | each event key the coffee maker registers is paired with the handler for that event |
| Handlers.FridgeFreezerEvents | addons/binding/org.openhab.binding.homeconnect/src/main/java/org/openhab/binding/homeconnect/internal/handler/HomeConnectFridgeFreezerHandler.java:43-54 | each event key the fridge/freezer registers is paired with the handler for that event |
| Handlers.UpdateRegistrations | addons/binding/org.openhab.binding.homeconnect/src/main/java/org/openhab/binding/homeconnect/handler/HomeConnectOvenHandler.java:108-172 | every registerChannelUpdateHandler call of every appliance pairs a channel with a handler that reads that channel's getter or program |
| Handlers.RuleFor | addons/binding/org.openhab.binding.homeconnect/src/main/java/org/openhab/binding/homeconnect/handler/HomeConnectWasherHandler.java:92-144 | an option key selects a case only in a handler that runs the options switch, and the numeric cases (remaining, progress, elapsed time) only in the active-program handler |
| Handlers.NumericTargetsAreReset | addons/binding/org.openhab.binding.homeconnect/src/main/java/org/openhab/binding/homeconnect/handler/HomeConnectOvenHandler.java:180-185 | every channel a numeric option of the active program writes is one resetProgramStateChannels puts back to NULL |
| Handlers.ResetChannelsAreNumericTargets | addons/binding/org.openhab.binding.homeconnect/src/main/java/org/openhab/binding/homeconnect/handler/HomeConnectOvenHandler.java:180-185 | every channel resetProgramStateChannels puts back to NULL is written by some numeric option of the active program |
| Handlers.TableLastWins | addons/binding/org.openhab.binding.homeconnect/src/main/java/org/openhab/binding/homeconnect/handler/AbstractHomeConnectThingHandler.java:165-179 | a key is in the handler map iff it was registered, and it maps to its last registration |
| Handlers.LastTarget | addons/binding/org.openhab.binding.homeconnect/src/main/java/org/openhab/binding/homeconnect/handler/HomeConnectOvenHandler.java:108-172 | the last option writing a channel, or -1 when none does |
| Handlers.ApplyOptionsEffect | addons/binding/org.openhab.binding.homeconnect/src/main/java/org/openhab/binding/homeconnect/handler/HomeConnectOvenHandler.java:108-172 | after the options loop, a channel shows the value of the last option that writes it; channels no option writes are unchanged |
| Handlers.FirstWithKey | addons/binding/org.openhab.binding.homeconnect/src/main/java/org/openhab/binding/homeconnect/handler/HomeConnectOvenHandler.java:148-171 | findFirst: the first option with the key, or none when no option has it |
| Handlers.ScanLength | addons/binding/org.openhab.binding.homeconnect/src/main/java/org/openhab/binding/homeconnect/handler/HomeConnectOvenHandler.java:148-171 | the stream stops at or before the end of the options |
| Handlers.UpdateChannel | addons/binding/org.openhab.binding.homeconnect/src/main/java/org/openhab/binding/homeconnect/handler/AbstractHomeConnectThingHandler.java:211-234 | no client, a bridge that is not online, or no handler for the channel means nothing changes |
| Handlers.UpdateChannels | addons/binding/org.openhab.binding.homeconnect/src/main/java/org/openhab/binding/homeconnect/handler/AbstractHomeConnectThingHandler.java:193-204 | a bridge that is not online means nothing changes |
| Handlers.UpdateEachWithoutClient | addons/binding/org.openhab.binding.homeconnect/src/main/java/org/openhab/binding/homeconnect/handler/AbstractHomeConnectThingHandler.java:211-234 | without a client, refreshing any channels changes nothing |
| Handlers.UpdateEachUnregistered | addons/binding/org.openhab.binding.homeconnect/src/main/java/org/openhab/binding/homeconnect/handler/AbstractHomeConnectThingHandler.java:211-234 | refreshing channels with no update handler changes nothing |
| Handlers.SingleChannelEvents | addons/binding/org.openhab.binding.homeconnect/src/main/java/org/openhab/binding/homeconnect/handler/AbstractHomeConnectThingHandler.java:289-336 | a simple event handler writes its own channel, if the thing has it, and nothing else |
| Handlers.SwitchedOffEffect | addons/binding/org.openhab.binding.homeconnect/src/main/java/org/openhab/binding/homeconnect/handler/HomeConnectOvenHandler.java:43-105 | disconnection or power-off: power OFF where the handler sets it, every other channel NULL, other entries kept |
| Handlers.DishwasherPowerOn | addons/binding/org.openhab.binding.homeconnect/src/main/java/org/openhab/binding/homeconnect/internal/handler/HomeConnectDishwasherHandler.java:42-114 | the dishwasher switched on changes only the power channel |
| Handlers.DishwasherPowerOff | addons/binding/org.openhab.binding.homeconnect/src/main/java/org/openhab/binding/homeconnect/internal/handler/HomeConnectDishwasherHandler.java:42-114 | switched off: power OFF, the program, selected and active channels NULL, everything else kept |
| Handlers.ProgramEndedEffect | addons/binding/org.openhab.binding.homeconnect/src/main/java/org/openhab/binding/homeconnect/handler/HomeConnectOvenHandler.java:43-105 | an active-program event without a value clears the label and the program channels, nothing else |
| Handlers.NoProgramEffect | addons/binding/org.openhab.binding.homeconnect/src/main/java/org/openhab/binding/homeconnect/handler/HomeConnectOvenHandler.java:108-172 | an update handler that finds no program posts NULL on its channel and resets the program channels |
| Handlers.ProgramFoundEffect | addons/binding/org.openhab.binding.homeconnect/src/main/java/org/openhab/binding/homeconnect/handler/HomeConnectOvenHandler.java:108-172 | a program with a key shows its label, then for each channel the last option that writes it; where the handler does not switch on options (the coffee maker's selected program, HomeConnectCoffeeMakerHandler.java:95-103) no option writes a channel, so only the label changes, whatever the options hold |
| Handlers.ApplyOptionsOutside | addons/binding/org.openhab.binding.homeconnect/src/main/java/org/openhab/binding/homeconnect/handler/HomeConnectOvenHandler.java:118-147 | the options switch leaves every channel the thing lacks as it was |
| Handlers.ProgramUpdateOutside | addons/binding/org.openhab.binding.homeconnect/src/main/java/org/openhab/binding/homeconnect/handler/HomeConnectOvenHandler.java:118-147 | a program update handler changes only its own channel and channels the thing has |
| Handlers.RunUpdateOutside | addons/binding/org.openhab.binding.homeconnect/src/main/java/org/openhab/binding/homeconnect/handler/AbstractHomeConnectThingHandler.java:338-382 | any update handler changes only the channel it runs for and channels the thing has |
| Handlers.UpdateEachOutside | addons/binding/org.openhab.binding.homeconnect/src/main/java/org/openhab/binding/homeconnect/handler/AbstractHomeConnectThingHandler.java:193-204 | refreshing a list of channels leaves every channel that is neither listed nor the thing's own as it was |
| Handlers.RunEventOutside | addons/binding/org.openhab.binding.homeconnect/src/main/java/org/openhab/binding/homeconnect/handler/AbstractHomeConnectThingHandler.java:289-336 | no event handler posts a state on a channel the thing lacks |
| ThingHandlers.ConnectionStatus | addons/binding/org.openhab.binding.homeconnect/src/main/java/org/openhab/binding/homeconnect/handler/AbstractHomeConnectThingHandler.java:261-278 | ONLINE iff there is a client and the appliance is connected; otherwise OFFLINE (bridge uninitialized without a client) |
| ThingHandlers.CommandSetting | addons/binding/org.openhab.binding.homeconnect/src/main/java/org/openhab/binding/homeconnect/internal/handler/HomeConnectDishwasherHandler.java:118-130 | a setting is requested iff it is a dishwasher on/off command on power, or a fridge/freezer quantity command on a setpoint channel; it carries the haId |
| ThingHandlers.PowerCommandValue | addons/binding/org.openhab.binding.homeconnect/src/main/java/org/openhab/binding/homeconnect/internal/handler/HomeConnectDishwasherHandler.java:118-130 | ON sends the on value, OFF the off value |
| ThingHandlers.SetpointCommandValue | addons/binding/org.openhab.binding.homeconnect/src/main/java/org/openhab/binding/homeconnect/internal/handler/HomeConnectFridgeFreezerHandler.java:94-115 | a setpoint is sent as the text of intValue with the quantity's unit, and reads back as that int |
| ThingHandlers.CommandAsWritten | addons/binding/org.openhab.binding.homeconnect/src/main/java/org/openhab/binding/homeconnect/internal/handler/HomeConnectFridgeFreezerHandler.java:94-115 | as written, the setter runs whenever a setting applies, even when the base method gave up |
| ThingHandlers.CommandRequest | addons/binding/org.openhab.binding.homeconnect/src/main/java/org/openhab/binding/homeconnect/handler/AbstractHomeConnectThingHandler.java:96-116 | corrected: a setting is requested only with an online bridge and a client, and then always |
| ThingHandlers.CommandDiscrepancy | addons/binding/org.openhab.binding.homeconnect/src/main/java/org/openhab/binding/homeconnect/internal/handler/HomeConnectDishwasherHandler.java:118-130 | where the base method ignores a command, the written code still requests or throws |
| ThingHandlers.OfflineDishwasherSwitchedOn | addons/binding/org.openhab.binding.homeconnect/src/main/java/org/openhab/binding/homeconnect/internal/handler/HomeConnectDishwasherHandler.java:118-130 | a dishwasher behind an OFFLINE bridge still sends the ON request as written |
| ThingHandlers.ThingHandler.constructor | addons/binding/org.openhab.binding.homeconnect/src/main/java/org/openhab/binding/homeconnect/handler/HomeConnectOvenHandler.java:39-173 | the handler maps are the tables of the appliance's registrations |
| ThingHandlers.ThingHandler.RegisterEventHandlers | addons/binding/org.openhab.binding.homeconnect/src/main/java/org/openhab/binding/homeconnect/handler/HomeConnectOvenHandler.java:43-104 | registering a list of event handlers one after another on an empty map leaves the map Table of the list: a later key replaces an earlier one; nothing else changes |
| ThingHandlers.ThingHandler.RegisterChannelUpdateHandlers | addons/binding/org.openhab.binding.homeconnect/src/main/java/org/openhab/binding/homeconnect/handler/HomeConnectOvenHandler.java:107-173 | the same for the channel-update handlers |
| ThingHandlers.ThingHandler.RegisterEventHandler | addons/binding/org.openhab.binding.homeconnect/src/main/java/org/openhab/binding/homeconnect/handler/AbstractHomeConnectThingHandler.java:165-167 | the key now maps to the handler, nothing else changes |
| ThingHandlers.ThingHandler.UnregisterEventHandler | addons/binding/org.openhab.binding.homeconnect/src/main/java/org/openhab/binding/homeconnect/handler/AbstractHomeConnectThingHandler.java:169-171 | the key is removed, nothing else changes |
| ThingHandlers.ThingHandler.RegisterChannelUpdateHandler | addons/binding/org.openhab.binding.homeconnect/src/main/java/org/openhab/binding/homeconnect/handler/AbstractHomeConnectThingHandler.java:173-175 | the channel now maps to the handler, nothing else changes |
| ThingHandlers.ThingHandler.UnregisterChannelUpdateHandler | addons/binding/org.openhab.binding.homeconnect/src/main/java/org/openhab/binding/homeconnect/handler/AbstractHomeConnectThingHandler.java:177-179 | the channel is removed, nothing else changes |
| ThingHandlers.ThingHandler.SetState | addons/binding/org.openhab.binding.homeconnect/src/main/java/org/openhab/binding/homeconnect/handler/AbstractHomeConnectThingHandler.java:289-336 | only the states change, as in SetChannel |
| ThingHandlers.ThingHandler.ResetProgramStateChannels | addons/binding/org.openhab.binding.homeconnect/src/main/java/org/openhab/binding/homeconnect/handler/HomeConnectWasherHandler.java:153-166 | the states become ResetProgram of the old ones |
| ThingHandlers.ThingHandler.ResetAllChannels | addons/binding/org.openhab.binding.homeconnect/src/main/java/org/openhab/binding/homeconnect/handler/HomeConnectOvenHandler.java:187-194 | the states become ResetAll of the old ones |
| ThingHandlers.ThingHandler.ApplyProgramOptions | addons/binding/org.openhab.binding.homeconnect/src/main/java/org/openhab/binding/homeconnect/handler/HomeConnectOvenHandler.java:108-172 | the states become ApplyOptions of the old ones |
| ThingHandlers.ThingHandler.UpdateFromProgram | addons/binding/org.openhab.binding.homeconnect/src/main/java/org/openhab/binding/homeconnect/handler/HomeConnectOvenHandler.java:108-172 | the states become ProgramUpdateEffect of the old ones |
| ThingHandlers.ThingHandler.RunUpdateHandler | addons/binding/org.openhab.binding.homeconnect/src/main/java/org/openhab/binding/homeconnect/handler/AbstractHomeConnectThingHandler.java:338-382 | the states become RunUpdate of the old ones |
| ThingHandlers.ThingHandler.UpdateChannel | addons/binding/org.openhab.binding.homeconnect/src/main/java/org/openhab/binding/homeconnect/handler/AbstractHomeConnectThingHandler.java:211-234 | the states become Handlers.UpdateChannel of the old ones |
| ThingHandlers.ThingHandler.UpdateChannels | addons/binding/org.openhab.binding.homeconnect/src/main/java/org/openhab/binding/homeconnect/handler/AbstractHomeConnectThingHandler.java:193-204 | the states become Handlers.UpdateChannels of the old ones |
| ThingHandlers.ThingHandler.HandleEvent | addons/binding/org.openhab.binding.homeconnect/src/main/java/org/openhab/binding/homeconnect/handler/AbstractHomeConnectThingHandler.java:289-336 | the states become RunEvent of the old ones |
| ThingHandlers.ThingHandler.HandleDisconnected | addons/binding/org.openhab.binding.homeconnect/src/main/java/org/openhab/binding/homeconnect/handler/HomeConnectOvenHandler.java:59-62 | the states become RunEvent of the disconnected-event handler on the old states (power OFF where the handler posts it, every other channel NULL); no other field changes |
| ThingHandlers.ThingHandler.HandleConnected | addons/binding/org.openhab.binding.homeconnect/src/main/java/org/openhab/binding/homeconnect/handler/HomeConnectOvenHandler.java:63-71 | the states become RunEvent of the connected-event handler (power ON where the handler posts it, program channels reset, every channel refreshed); no other field changes |
| ThingHandlers.ThingHandler.HandleOvenPower | addons/binding/org.openhab.binding.homeconnect/src/main/java/org/openhab/binding/homeconnect/handler/HomeConnectOvenHandler.java:72-86 | the states become RunEvent of the oven power handler (ON iff the value is the power-on constant, then a refresh on ON and a reset of all other channels otherwise); no other field changes |
| ThingHandlers.ThingHandler.HandleDishwasherPower | addons/binding/org.openhab.binding.homeconnect/src/main/java/org/openhab/binding/homeconnect/internal/handler/HomeConnectDishwasherHandler.java:68-79 | the states become RunEvent of the dishwasher power handler (off also resets the program channels and the selected and active program); no other field changes |
| ThingHandlers.ThingHandler.HandleActiveProgram | addons/binding/org.openhab.binding.homeconnect/src/main/java/org/openhab/binding/homeconnect/internal/handler/HomeConnectDishwasherHandler.java:54-67 | the states become RunEvent of the active-program handler (the label or NULL, a reset on null, and an update of the channel where the handler refreshes); no other field changes |
| ThingHandlers.ThingHandler.OnEvent | addons/binding/org.openhab.binding.homeconnect/src/main/java/org/openhab/binding/homeconnect/handler/AbstractHomeConnectThingHandler.java:133-141 | an event for an unregistered key changes nothing; otherwise the registered handler runs |
| ThingHandlers.ThingHandler.RefreshConnectionStatus | addons/binding/org.openhab.binding.homeconnect/src/main/java/org/openhab/binding/homeconnect/handler/AbstractHomeConnectThingHandler.java:261-278 | only the status changes, to ConnectionStatus |
| ThingHandlers.ThingHandler.RefreshClient | addons/binding/org.openhab.binding.homeconnect/src/main/java/org/openhab/binding/homeconnect/handler/AbstractHomeConnectThingHandler.java:126-163 | the same client changes nothing; a new one gets a fresh listener registered, then the channels are refreshed |
| ThingHandlers.ThingHandler.Initialize | addons/binding/org.openhab.binding.homeconnect/src/main/java/org/openhab/binding/homeconnect/handler/AbstractHomeConnectThingHandler.java:72-93 | no client: OFFLINE only; with a client: the listener is re-registered and channels and status refreshed |
| ThingHandlers.ThingHandler.Dispose | addons/binding/org.openhab.binding.homeconnect/src/main/java/org/openhab/binding/homeconnect/handler/AbstractHomeConnectThingHandler.java:119-123 | the listener is unregistered from the client when there are both |
| ThingHandlers.ThingHandler.HandleCommand | addons/binding/org.openhab.binding.homeconnect/src/main/java/org/openhab/binding/homeconnect/handler/AbstractHomeConnectThingHandler.java:96-116 | with an online bridge and a client, REFRESH updates the channel and the appliance's setting is sent; otherwise nothing changes |
| LegacyDishwasher.EventChannel | addons/binding/org.openhab.binding.homeconnect/src/main/java/org/openhab/binding/homeconnect/handler/HomeConnectDishwasherHandler.java:115-165 | a channel iff the key is one of the eight in the switch, always a dishwasher channel |
| LegacyDishwasher.EventChannelInjective | addons/binding/org.openhab.binding.homeconnect/src/main/java/org/openhab/binding/homeconnect/handler/HomeConnectDishwasherHandler.java:115-165 | no two event keys share a channel |
| LegacyDishwasher.BoolText | addons/binding/org.openhab.binding.homeconnect/src/main/java/org/openhab/binding/homeconnect/handler/HomeConnectDishwasherHandler.java:263-265 | String.valueOf(boolean) is "true" iff the flag |
| LegacyDishwasher.TextState | addons/binding/org.openhab.binding.homeconnect/src/main/java/org/openhab/binding/homeconnect/handler/HomeConnectDishwasherHandler.java:308-328 | NULL for no value or an unknown channel; the door and power rules; ON iff "true" on remote channels; labels for operation and program; the remaining-time and progress channels show the value as a decimal |
| LegacyDishwasher.TextStateDefined | addons/binding/org.openhab.binding.homeconnect/src/main/java/org/openhab/binding/homeconnect/handler/HomeConnectDishwasherHandler.java:308-328 | on a channel of the dishwasher a present value is never shown as NULL |
| LegacyDishwasher.BooleanStateRoundTrip | addons/binding/org.openhab.binding.homeconnect/src/main/java/org/openhab/binding/homeconnect/handler/HomeConnectDishwasherHandler.java:263-265 | a flag written as text and read back shows ON iff the flag |
| LegacyDishwasher.FirstOptionValue | addons/binding/org.openhab.binding.homeconnect/src/main/java/org/openhab/binding/homeconnect/handler/HomeConnectDishwasherHandler.java:274-299 | the value of the first option with the key (any option with the key and none before it gives the result), none when no option has it |
| LegacyDishwasher.ProgramState | addons/binding/org.openhab.binding.homeconnect/src/main/java/org/openhab/binding/homeconnect/handler/HomeConnectDishwasherHandler.java:274-299 | NULL for no program or another channel; the program's label; the remaining-time and progress channels show the decimal of the first option with that key, and NULL exactly when there is none |
| LegacyDishwasher.ProgressFromFirstOption | addons/binding/org.openhab.binding.homeconnect/src/main/java/org/openhab/binding/homeconnect/handler/HomeConnectDishwasherHandler.java:274-299 | progress shows the first progress option's text |
| LegacyDishwasher.RemainingFromFirstOption | addons/binding/org.openhab.binding.homeconnect/src/main/java/org/openhab/binding/homeconnect/handler/HomeConnectDishwasherHandler.java:274-299 | remaining time shows the first remaining-time option's text as a decimal; later options with that key are ignored |
| LegacyDishwasher.FetchedState | addons/binding/org.openhab.binding.homeconnect/src/main/java/org/openhab/binding/homeconnect/handler/HomeConnectDishwasherHandler.java:213-240 | a state only for the eight dishwasher channels |
| LegacyDishwasher.UpdateChannelState | addons/binding/org.openhab.binding.homeconnect/src/main/java/org/openhab/binding/homeconnect/handler/HomeConnectDishwasherHandler.java:213-240 | without a client or for an unknown channel nothing changes; other channels are always kept |
| LegacyDishwasher.DoorAgreesWithSharedHandler | addons/binding/org.openhab.binding.homeconnect/src/main/java/org/openhab/binding/homeconnect/handler/AbstractHomeConnectThingHandler.java:338-348 | the older handler's door refresh equals the shared update handler's |
| LegacyDishwasher.PowerAgreesWithSharedHandler | addons/binding/org.openhab.binding.homeconnect/src/main/java/org/openhab/binding/homeconnect/handler/AbstractHomeConnectThingHandler.java:350-359 | the older handler's power refresh equals the shared update handler's |
| LegacyDishwasher.OperationAgreesWithSharedHandler | addons/binding/org.openhab.binding.homeconnect/src/main/java/org/openhab/binding/homeconnect/handler/AbstractHomeConnectThingHandler.java:361-370 | the older handler's operation-state refresh equals the shared update handler's |
| LegacyDishwasher.RemoteAgreesWithSharedHandler | addons/binding/org.openhab.binding.homeconnect/src/main/java/org/openhab/binding/homeconnect/handler/AbstractHomeConnectThingHandler.java:372-382 | the older handler's remote-control refresh equals the shared update handlers' |
| LegacyDishwasher.UpdateAll | addons/binding/org.openhab.binding.homeconnect/src/main/java/org/openhab/binding/homeconnect/handler/HomeConnectDishwasherHandler.java:201-206 | without a client nothing changes; a channel that is not listed is left as it was |
| LegacyDishwasher.EventEffect | addons/binding/org.openhab.binding.homeconnect/src/main/java/org/openhab/binding/homeconnect/handler/HomeConnectDishwasherHandler.java:115-165 | an event outside the switch, or for a channel the thing lacks, changes nothing; otherwise the key's channel shows the event's value as that channel's state |
| LegacyDishwasher.ActiveProgramEventRefreshesProgress | addons/binding/org.openhab.binding.homeconnect/src/main/java/org/openhab/binding/homeconnect/handler/HomeConnectDishwasherHandler.java:141-160 | an active-program event labels the program channel and refreshes progress from the fetched program |
| LegacyDishwasher.PowerRequest | addons/binding/org.openhab.binding.homeconnect/src/main/java/org/openhab/binding/homeconnect/handler/HomeConnectDishwasherHandler.java:67-101 | a power request iff an on/off command on the power channel, the same setting as the current dishwasher's |
| LegacyDishwasher.DishwasherHandler.constructor | addons/binding/org.openhab.binding.homeconnect/src/main/java/org/openhab/binding/homeconnect/handler/HomeConnectDishwasherHandler.java:62-65 | no states, no client or listener, UNINITIALIZED |
| LegacyDishwasher.DishwasherHandler.Initialize | addons/binding/org.openhab.binding.homeconnect/src/main/java/org/openhab/binding/homeconnect/handler/HomeConnectDishwasherHandler.java:104-108 | only the status changes, to OFFLINE |
| LegacyDishwasher.DishwasherHandler.UpdateChannel | addons/binding/org.openhab.binding.homeconnect/src/main/java/org/openhab/binding/homeconnect/handler/HomeConnectDishwasherHandler.java:213-240 | the states become UpdateChannelState of the old ones |
| LegacyDishwasher.DishwasherHandler.UpdateChannels | addons/binding/org.openhab.binding.homeconnect/src/main/java/org/openhab/binding/homeconnect/handler/HomeConnectDishwasherHandler.java:201-206 | the states become UpdateAll over the thing's channels |
| LegacyDishwasher.DishwasherHandler.OnEvent | addons/binding/org.openhab.binding.homeconnect/src/main/java/org/openhab/binding/homeconnect/handler/HomeConnectDishwasherHandler.java:115-165 | the states become EventEffect of the old ones |
| LegacyDishwasher.DishwasherHandler.OnReconnect | addons/binding/org.openhab.binding.homeconnect/src/main/java/org/openhab/binding/homeconnect/handler/HomeConnectDishwasherHandler.java:173-176 | every channel is refreshed |
| LegacyDishwasher.DishwasherHandler.RefreshConnectionStatus | addons/binding/org.openhab.binding.homeconnect/src/main/java/org/openhab/binding/homeconnect/handler/HomeConnectDishwasherHandler.java:355-372 | only the status changes, to ConnectionStatus |
| LegacyDishwasher.DishwasherHandler.RefreshClient | addons/binding/org.openhab.binding.homeconnect/src/main/java/org/openhab/binding/homeconnect/handler/HomeConnectDishwasherHandler.java:110-188 | the client is taken, a fresh listener for the haId is registered, and status and channels follow the outcome |
| LegacyDishwasher.DishwasherHandler.Dispose | addons/binding/org.openhab.binding.homeconnect/src/main/java/org/openhab/binding/homeconnect/handler/HomeConnectDishwasherHandler.java:191-196 | the listener is unregistered from the client when there are both |
| LegacyDishwasher.DishwasherHandler.HandleCommand | addons/binding/org.openhab.binding.homeconnect/src/main/java/org/openhab/binding/homeconnect/handler/HomeConnectDishwasherHandler.java:67-101 | with an online bridge and a client, REFRESH updates the channel and a power command is sent; otherwise nothing changes |
| Discovery.ApplianceLabel | addons/binding/org.openhab.binding.homeconnect/src/main/java/org/openhab/binding/homeconnect/internal/discovery/HomeConnectDiscoveryService.java:82-85 | brand first, then the haId in brackets at the end, which can be read back |
| Discovery.ThingTypeFor | addons/binding/org.openhab.binding.homeconnect/src/main/java/org/openhab/binding/homeconnect/internal/discovery/HomeConnectDiscoveryService.java:87-100 | a thing type matching the listed type ignoring case, among the six supported, none iff none matches; the older service knows only the dishwasher |
| Discovery.ThingTypeUnique | addons/binding/org.openhab.binding.homeconnect/src/main/java/org/openhab/binding/homeconnect/internal/discovery/HomeConnectDiscoveryService.java:87-100 | a listed type matching a supported thing type maps to exactly that one, whatever the branch order |
| Discovery.ResultFor | addons/binding/org.openhab.binding.homeconnect/src/main/java/org/openhab/binding/homeconnect/internal/discovery/HomeConnectDiscoveryService.java:102-106 | the result carries the haId in its uid and properties, the label and the thing type |
| Discovery.Step | addons/binding/org.openhab.binding.homeconnect/src/main/java/org/openhab/binding/homeconnect/internal/discovery/HomeConnectDiscoveryService.java:70-110 | one appliance yields a result iff it is new and of a supported type |
| Discovery.Discover | addons/binding/org.openhab.binding.homeconnect/src/main/java/org/openhab/binding/homeconnect/internal/discovery/HomeConnectDiscoveryService.java:70-110 | a scan reports at most one result per appliance |
| Discovery.DiscoverContents | addons/binding/org.openhab.binding.homeconnect/src/main/java/org/openhab/binding/homeconnect/internal/discovery/HomeConnectDiscoveryService.java:70-110 | a scan reports exactly the results of new appliances of a supported type |
| Discovery.DiscoverSkipsKnown | addons/binding/org.openhab.binding.homeconnect/src/main/java/org/openhab/binding/homeconnect/discovery/HomeConnectDiscoveryService.java:76-89 | no scan reports a configured appliance; the older one reports only dishwashers |
| Discovery.AlreadyExists | addons/binding/org.openhab.binding.homeconnect/src/main/java/org/openhab/binding/homeconnect/internal/discovery/HomeConnectDiscoveryService.java:140-149 | found iff some child thing is configured with the haId |
| Discovery.DiscoveryService.constructor | addons/binding/org.openhab.binding.homeconnect/src/main/java/org/openhab/binding/homeconnect/internal/discovery/HomeConnectDiscoveryService.java:58-120 | no results yet |
| Discovery.DiscoveryService.ReportAppliances | addons/binding/org.openhab.binding.homeconnect/src/main/java/org/openhab/binding/homeconnect/internal/discovery/HomeConnectDiscoveryService.java:70-110 | the results grow by Discover of the listed appliances |
| Discovery.DiscoveryService.ReportAppliance | addons/binding/org.openhab.binding.homeconnect/src/main/java/org/openhab/binding/homeconnect/internal/discovery/HomeConnectDiscoveryService.java:71-109 | one appliance adds exactly Step of it to the results: one result when it is not a child thing yet and its type has a thing type, none otherwise |
| Discovery.DiscoveryService.StartScan | addons/binding/org.openhab.binding.homeconnect/src/main/java/org/openhab/binding/homeconnect/internal/discovery/HomeConnectDiscoveryService.java:58-120 | nothing without a client, when listing throws, or for a null list; otherwise Discover |
| Discovery.DiscoveryService.LegacyStartScan | addons/binding/org.openhab.binding.homeconnect/src/main/java/org/openhab/binding/homeconnect/discovery/HomeConnectDiscoveryService.java:58-105 | a client of its own is built and always disposed; the results grow by the dishwasher scan |

## Left out

- HTTP, OAuth and JSON I/O. The token endpoint, the getters and the JSON parser are parameters: a `GrantResult`, an `ApplianceView`, and JSON items already split into fields.
- The OkSse transport, threads and `synchronized`. Each callback is one atomic step.
- The 401 retry loop (`addons/binding/org.openhab.binding.homeconnect/src/main/java/org/openhab/binding/homeconnect/internal/client/HomeConnectApiClient.java:314-335`) is one step. The transport decides whether it comes back.
- Framework plumbing is not part of this model. This covers `updateStatus` (kept as a status field), thing and channel lookup (a list of channel ids), the handler factories, and the bridge handler, which only hands over a client.
- Temperature units are kept as the unit text the API sends.
- Handlers.RunUpdate and Handlers.RunEvent: the default selected-program handlers (`SelectedProgramDefaultUpdate`, `SelectedProgramDefaultEvent`) change nothing. The methods defaultSelectedProgramStateEventHandler and defaultSelectedProgramStateUpdateHandler are only called (e.g. HomeConnectOvenHandler.java:52 and 115, HomeConnectWasherHandler.java:60); their bodies are not part of this model, so these two handlers stand for unknown behaviour.
- Case folding covers only ASCII letters.
- Constants whose values are not shown are placeholders named after themselves. This includes the thing type ids other than the dishwasher. All placeholders are distinct, even ignoring case.
- The setters' HTTP PUT is modelled as the `sent` log of settings.
- Numbers.ParseJavaInt: accepts only the ASCII digits 0-9. Integer.valueOf reads digits through Character.digit, which also accepts the decimal digits of other scripts; the model rejects those texts.
- Client.ApiClient.GetActiveProgram: makes one attempt. On an InvalidTokenException, getProgram (`addons/binding/org.openhab.binding.homeconnect/src/main/java/org/openhab/binding/homeconnect/internal/client/HomeConnectApiClient.java:422-424`) calls itself again, without bound. The model returns `Retry` with the token cleared and leaves the next attempt to the caller.
- Handlers.UpdateReadable: states the conditions under which an update handler runs without a NullPointerException or NumberFormatException, and the model covers only runs that meet them. Two NullPointerException paths are left out. One is a switch on an option whose key is null (for example `addons/binding/org.openhab.binding.homeconnect/src/main/java/org/openhab/binding/homeconnect/handler/HomeConnectWasherHandler.java:130`). The other is a mapper given a null value: `value.startsWith` in the washer's temperature and spin-speed mappers (`addons/binding/org.openhab.binding.homeconnect/src/main/java/org/openhab/binding/homeconnect/handler/HomeConnectWasherHandler.java:168-190`), and `mapStringType` on a null string.
- Model.IntValue: requires a value that `Integer.valueOf` accepts. The NumberFormatException is not modelled.
- ThingHandlers.ThingHandler.OnEvent: requires a non-null event key, where the Java switch would throw.
- LegacyDishwasher.DishwasherHandler.OnEvent: requires a non-null event key, where the Java switch would throw.
- LegacyDishwasher.TextState: keeps remaining time and progress as their decimal text. It does not model the DecimalType parse failure on non-numeric text.
- Client.ApiClient.CheckCredentials: the same grant answer is used for every credential check in one call.
- Discovery.DiscoveryService.StartScan: only exceptions from the appliance listing are modelled. Appliance fields are non-null strings.
- Removing older discovery results by timestamp (deactivate, stopScan) is left out, because it depends on the clock.
- The current discovery service collects the bridge's children's haIds and discards them. This has no effect and is left out.

## Findings

| source | as written | input that shows it | evidently intended | confidence | as-written member | corrected member |
|---|---|---|---|---|---|---|
| addons/binding/org.openhab.binding.homeconnect/src/main/java/org/openhab/binding/homeconnect/handler/AbstractHomeConnectThingHandler.java:185-187 | `Optional.of(getThing().getChannel(id))` throws NullPointerException when the thing lacks the channel | a thing without the elapsed-program-time channel receiving that event | `Optional.ofNullable`, so that `ifPresent` skips missing channels | not executed | Channels.ThingChannelAsWritten, Channels.ElapsedChannelMissing | Channels.ThingChannel |
| addons/binding/org.openhab.binding.homeconnect/src/main/java/org/openhab/binding/homeconnect/internal/client/HomeConnectApiClient.java:314-335 | on a 401, the retry callback re-registers the listener it captured, even after that listener was unregistered | L1 and L2 listen to one appliance, L1 is unregistered, then the stream gets a 401 | the new stream serves the listeners still registered, and the list is not changed | not executed | Client.RetryErrorAsWritten, Client.RetryErrorAsWrittenEffect, Client.ResurrectionAsWritten | Client.RetryError, Client.RetryErrorPreserves |
| addons/binding/org.openhab.binding.homeconnect/src/main/java/org/openhab/binding/homeconnect/internal/handler/HomeConnectDishwasherHandler.java:118-130 | handleCommand calls the setter after `super.handleCommand` returns early for a missing or OFFLINE bridge or a missing client | an ON command on a dishwasher whose bridge is OFFLINE | send the setting only when the base method goes on | not executed | ThingHandlers.CommandAsWritten, ThingHandlers.OfflineDishwasherSwitchedOn | ThingHandlers.CommandRequest, ThingHandlers.ThingHandler.HandleCommand |
