/**
 * The older dishwasher thing handler, which keeps its own API client and event listener and
 * turns API values into channel states by looking at the channel id, with no handler tables.
 */
module LegacyDishwasher {
  import opened Wrappers
  import opened Model
  import opened Credentials
  import opened Client
  import opened Labels
  import opened Constants
  import opened Channels
  import opened Handlers
  import opened ThingHandlers

  /** The eight channels of the older dishwasher thing type. */
  function DishwasherChannels(): seq<string> {
    [CHANNEL_DISHWASHER_POWER_STATE, CHANNEL_DISHWASHER_DOOR_STATE, CHANNEL_DISHWASHER_OPERATION_STATE,
     CHANNEL_DISHWASHER_REMOTE_CONTROL_ACTIVE_STATE, CHANNEL_DISHWASHER_REMOTE_START_ALLOWANCE_STATE,
     CHANNEL_DISHWASHER_PROGRAM_PROGRESS_STATE, CHANNEL_DISHWASHER_REMAINING_PROGRAM_TIME_STATE,
     CHANNEL_DISHWASHER_ACTIVE_PROGRAM_STATE]
  }

  /** The event keys the listener reacts to, in the order of its switch. */
  function EventKeys(): seq<string> {
    [STATE_POWER, STATE_DOOR, STATE_OPERATION, STATE_REMOTE_CONTROL, STATE_REMOTE_START,
     OPTION_PROGRAM_PROGRESS, OPTION_REMAINING_PROGRAM_TIME, STATE_ACTIVE_PROGRAM]
  }

  predicate IsRemoteChannel(channel: string) {
    channel == CHANNEL_DISHWASHER_REMOTE_START_ALLOWANCE_STATE || channel == CHANNEL_DISHWASHER_REMOTE_CONTROL_ACTIVE_STATE
  }

  /** The channels whose value comes from the active program. */
  predicate IsProgramChannel(channel: string) {
    channel == CHANNEL_DISHWASHER_ACTIVE_PROGRAM_STATE ||
    channel == CHANNEL_DISHWASHER_REMAINING_PROGRAM_TIME_STATE ||
    channel == CHANNEL_DISHWASHER_PROGRAM_PROGRESS_STATE
  }

  /** The switch of onEvent: the channel an event key is shown on, none for any other key. */
  function EventChannel(key: string): (r: Option<string>)
    ensures r.Some? <==> key in EventKeys()
    ensures r.Some? ==> r.value in DishwasherChannels()
  {
    if key == STATE_POWER then Some(CHANNEL_DISHWASHER_POWER_STATE)
    else if key == STATE_DOOR then Some(CHANNEL_DISHWASHER_DOOR_STATE)
    else if key == STATE_OPERATION then Some(CHANNEL_DISHWASHER_OPERATION_STATE)
    else if key == STATE_REMOTE_CONTROL then Some(CHANNEL_DISHWASHER_REMOTE_CONTROL_ACTIVE_STATE)
    else if key == STATE_REMOTE_START then Some(CHANNEL_DISHWASHER_REMOTE_START_ALLOWANCE_STATE)
    else if key == OPTION_PROGRAM_PROGRESS then Some(CHANNEL_DISHWASHER_PROGRAM_PROGRESS_STATE)
    else if key == OPTION_REMAINING_PROGRAM_TIME then Some(CHANNEL_DISHWASHER_REMAINING_PROGRAM_TIME_STATE)
    else if key == STATE_ACTIVE_PROGRAM then Some(CHANNEL_DISHWASHER_ACTIVE_PROGRAM_STATE)
    else None
  }

  /** No two event keys share a channel, so a channel's state always comes from the one key shown on it. */
  lemma EventChannelInjective(k1: string, k2: string)
    requires EventChannel(k1).Some? && EventChannel(k1) == EventChannel(k2)
    ensures k1 == k2
  {
  }

  /** String.valueOf(boolean). */
  function BoolText(b: bool): (s: string)
    ensures s == "true" <==> b
  {
    if b then "true" else "false"
  }

  /**
   * createState(channelUID, String): NULL for a null value or a channel it does not know; the
   * label for the operation state and the active program, the door and power rules, ON exactly
   * for the text "true" on the remote-control channels, the decimal text for remaining time
   * and progress.
   */
  function TextState(channel: string, value: Option<string>): (s: State)
    ensures value.None? || channel !in DishwasherChannels() ==> s == NULL
    ensures value.Some? && channel == CHANNEL_DISHWASHER_DOOR_STATE ==> s == DoorState(value)
    ensures value.Some? && channel == CHANNEL_DISHWASHER_POWER_STATE ==> s == PowerState(value)
    ensures value.Some? && IsRemoteChannel(channel) ==> (s == ON <==> value.value == "true") && (s == ON || s == OFF)
    ensures channel == CHANNEL_DISHWASHER_OPERATION_STATE || channel == CHANNEL_DISHWASHER_ACTIVE_PROGRAM_STATE ==>
      s == LabelState(value)
    ensures (value.Some? &&
             (channel == CHANNEL_DISHWASHER_REMAINING_PROGRAM_TIME_STATE || channel == CHANNEL_DISHWASHER_PROGRAM_PROGRESS_STATE)) ==>
      s == Decimal(value.value)
  {
    if value.None? then NULL
    else if channel == CHANNEL_DISHWASHER_OPERATION_STATE then Str(Label(value.value))
    else if channel == CHANNEL_DISHWASHER_DOOR_STATE then (if value.value == STATE_DOOR_OPEN then OPEN else CLOSED)
    else if channel == CHANNEL_DISHWASHER_POWER_STATE then (if value.value == STATE_POWER_ON then ON else OFF)
    else if IsRemoteChannel(channel) then (if value.value == "true" then ON else OFF)
    else if channel == CHANNEL_DISHWASHER_ACTIVE_PROGRAM_STATE then Str(Label(value.value))
    else if channel == CHANNEL_DISHWASHER_REMAINING_PROGRAM_TIME_STATE || channel == CHANNEL_DISHWASHER_PROGRAM_PROGRESS_STATE then
      Decimal(value.value)
    else
      assert channel !in DishwasherChannels();
      NULL
  }

  /** Every known channel shows a value as something other than NULL. */
  lemma TextStateDefined(channel: string, value: string)
    requires channel in DishwasherChannels()
    ensures TextState(channel, Some(value)) != NULL
  {
  }

  /** createState(channelUID, Data): NULL for a null Data, otherwise the rule for its value. */
  function DataState(channel: string, d: Option<Data>): State {
    if d.None? then NULL else TextState(channel, d.value.value)
  }

  /** createState(channelUID, boolean) goes through String.valueOf and back: the remote channels read the flag itself. */
  lemma BooleanStateRoundTrip(channel: string, b: bool)
    requires IsRemoteChannel(channel)
    ensures TextState(channel, Some(BoolText(b))) == Switch(b)
  {
  }

  /** The value of the first option with the key (findFirst), none when no option has it (noneMatch). */
  function FirstOptionValue(options: seq<ProgramOption>, key: string): (r: Option<string>)
    ensures r.Some? ==> exists i | 0 <= i < |options| ::
      options[i].key == Some(key) && options[i].value == r && (forall j | 0 <= j < i :: options[j].key != Some(key))
    ensures (forall i | 0 <= i < |options| :: options[i].key != Some(key)) ==> r.None?
    ensures forall i | 0 <= i < |options| && options[i].key == Some(key) &&
      (forall j | 0 <= j < i :: options[j].key != Some(key)) :: r == options[i].value
  {
    match FirstWithKey(options, key)
    case None => None
    case Some(i) => options[i].value
  }

  /** createState(channelUID, Program): the active program's label, or the value of the remaining-time or progress option. */
  function ProgramState(channel: string, program: Option<Program>): (s: State)
    ensures program.None? || !IsProgramChannel(channel) ==> s == NULL
    ensures program.Some? && channel == CHANNEL_DISHWASHER_ACTIVE_PROGRAM_STATE ==> s == LabelState(program.value.key)
    ensures program.Some? && channel == CHANNEL_DISHWASHER_REMAINING_PROGRAM_TIME_STATE ==>
      (s == NULL <==> FirstOptionValue(program.value.options, OPTION_REMAINING_PROGRAM_TIME).None?)
    ensures program.Some? && channel == CHANNEL_DISHWASHER_PROGRAM_PROGRESS_STATE ==>
      (s == NULL <==> FirstOptionValue(program.value.options, OPTION_PROGRAM_PROGRESS).None?)
    ensures program.Some? && channel == CHANNEL_DISHWASHER_REMAINING_PROGRAM_TIME_STATE ==>
      s == TextState(channel, FirstOptionValue(program.value.options, OPTION_REMAINING_PROGRAM_TIME))
    ensures program.Some? && channel == CHANNEL_DISHWASHER_PROGRAM_PROGRESS_STATE ==>
      s == TextState(channel, FirstOptionValue(program.value.options, OPTION_PROGRAM_PROGRESS))
  {
    if program.None? then NULL
    else if channel == CHANNEL_DISHWASHER_ACTIVE_PROGRAM_STATE then TextState(channel, program.value.key)
    else if channel == CHANNEL_DISHWASHER_REMAINING_PROGRAM_TIME_STATE then
      TextState(channel, FirstOptionValue(program.value.options, OPTION_REMAINING_PROGRAM_TIME))
    else if channel == CHANNEL_DISHWASHER_PROGRAM_PROGRESS_STATE then
      TextState(channel, FirstOptionValue(program.value.options, OPTION_PROGRAM_PROGRESS))
    else NULL
  }

  /** The progress channel shows the text of the first progress option; later options with the same key are ignored. */
  lemma ProgressFromFirstOption(p: Program, i: nat, v: string)
    requires i < |p.options| && p.options[i].key == Some(OPTION_PROGRAM_PROGRESS) && p.options[i].value == Some(v)
    requires forall j | 0 <= j < i :: p.options[j].key != Some(OPTION_PROGRAM_PROGRESS)
    ensures ProgramState(CHANNEL_DISHWASHER_PROGRAM_PROGRESS_STATE, Some(p)) == Decimal(v)
  {
    var r := FirstWithKey(p.options, OPTION_PROGRAM_PROGRESS);
    assert r == Some(i);
  }

  /** The remaining-time channel shows the text of the first remaining-time option; later ones are ignored. */
  lemma RemainingFromFirstOption(p: Program, i: nat, v: string)
    requires i < |p.options| && p.options[i].key == Some(OPTION_REMAINING_PROGRAM_TIME) && p.options[i].value == Some(v)
    requires forall j | 0 <= j < i :: p.options[j].key != Some(OPTION_REMAINING_PROGRAM_TIME)
    ensures ProgramState(CHANNEL_DISHWASHER_REMAINING_PROGRAM_TIME_STATE, Some(p)) == Decimal(v)
  {
    var r := FirstWithKey(p.options, OPTION_REMAINING_PROGRAM_TIME);
    assert r == Some(i);
  }

  /**
   * What updateChannel shows on a channel when the getter for it answers: none for a channel
   * it has no getter for, or when the getter threw (the exception is caught and logged).
   */
  function FetchedState(channel: string, view: ApplianceView): (r: Option<State>)
    ensures r.Some? ==> channel in DishwasherChannels()
  {
    if channel == CHANNEL_DISHWASHER_OPERATION_STATE then
      if view.operationState.Fetched? then Some(DataState(channel, view.operationState.value)) else None
    else if channel == CHANNEL_DISHWASHER_DOOR_STATE then
      if view.doorState.Fetched? then Some(DataState(channel, view.doorState.value)) else None
    else if channel == CHANNEL_DISHWASHER_POWER_STATE then
      if view.powerState.Fetched? then Some(DataState(channel, view.powerState.value)) else None
    else if channel == CHANNEL_DISHWASHER_REMOTE_START_ALLOWANCE_STATE then
      if view.remoteStartAllowed.Fetched? then Some(TextState(channel, Some(BoolText(IsRemoteFlag(view.remoteStartAllowed.value))))) else None
    else if channel == CHANNEL_DISHWASHER_REMOTE_CONTROL_ACTIVE_STATE then
      if view.remoteControlActive.Fetched? then Some(TextState(channel, Some(BoolText(IsRemoteFlag(view.remoteControlActive.value))))) else None
    else if IsProgramChannel(channel) then
      if view.activeProgram.Fetched? then Some(ProgramState(channel, view.activeProgram.value)) else None
    else None
  }

  /** updateChannel: nothing without a client; otherwise the channel shows what its getter answered. */
  function UpdateChannelState(hasClient: bool, states: States, channel: string, view: ApplianceView): (r: States)
    ensures !hasClient || channel !in DishwasherChannels() ==> r == states
    ensures forall c :: c != channel ==> (c in r <==> c in states) && (c in states ==> r[c] == states[c])
  {
    if !hasClient then states
    else match FetchedState(channel, view)
      case None => states
      case Some(s) => states[channel := s]
  }

  /*
   * On the channels both dishwasher handlers have, the older handler shows a fetched status
   * exactly as the shared handler's update handlers do.
   */

  lemma DoorAgreesWithSharedHandler(kind: ApplianceKind, channels: seq<string>, states: States, view: ApplianceView)
    ensures UpdateChannelState(true, states, CHANNEL_DISHWASHER_DOOR_STATE, view) ==
            RunUpdate(kind, channels, states, CHANNEL_DISHWASHER_DOOR_STATE, DoorUpdate, view)
  {
  }

  lemma PowerAgreesWithSharedHandler(kind: ApplianceKind, channels: seq<string>, states: States, view: ApplianceView)
    ensures UpdateChannelState(true, states, CHANNEL_DISHWASHER_POWER_STATE, view) ==
            RunUpdate(kind, channels, states, CHANNEL_DISHWASHER_POWER_STATE, PowerUpdate, view)
  {
  }

  /** The older handler's operation-state getter shows the label of a present value, NULL otherwise. */
  lemma OperationFetchedState(view: ApplianceView)
    requires view.operationState.Fetched?
    ensures var d := view.operationState.value;
      FetchedState(CHANNEL_DISHWASHER_OPERATION_STATE, view) == Some(if HasValue(d) then LabelState(d.value.value) else NULL)
  {
    var d := view.operationState.value;
    assert DataState(CHANNEL_DISHWASHER_OPERATION_STATE, d) == if HasValue(d) then LabelState(d.value.value) else NULL;
  }

  lemma OperationAgreesWithSharedHandler(kind: ApplianceKind, channels: seq<string>, states: States, view: ApplianceView)
    ensures UpdateChannelState(true, states, CHANNEL_DISHWASHER_OPERATION_STATE, view) ==
            RunUpdate(kind, channels, states, CHANNEL_DISHWASHER_OPERATION_STATE, OperationUpdate, view)
  {
    if view.operationState.Fetched? {
      var d := view.operationState.value;
      var want := if HasValue(d) then LabelState(d.value.value) else NULL;
      OperationFetchedState(view);
      assert RunUpdate(kind, channels, states, CHANNEL_DISHWASHER_OPERATION_STATE, OperationUpdate, view) == states[CHANNEL_DISHWASHER_OPERATION_STATE := want];
    }
  }

  lemma RemoteAgreesWithSharedHandler(kind: ApplianceKind, channels: seq<string>, states: States, view: ApplianceView)
    ensures UpdateChannelState(true, states, CHANNEL_DISHWASHER_REMOTE_CONTROL_ACTIVE_STATE, view) ==
            RunUpdate(kind, channels, states, CHANNEL_DISHWASHER_REMOTE_CONTROL_ACTIVE_STATE, RemoteControlActiveUpdate, view)
    ensures UpdateChannelState(true, states, CHANNEL_DISHWASHER_REMOTE_START_ALLOWANCE_STATE, view) ==
            RunUpdate(kind, channels, states, CHANNEL_DISHWASHER_REMOTE_START_ALLOWANCE_STATE, RemoteStartAllowanceUpdate, view)
  {
  }

  /**
   * updateChannels: updateChannel on every listed channel in turn (no bridge check in this
   * handler). It touches the listed channels only, and nothing at all without a client.
   */
  function UpdateAll(hasClient: bool, states: States, ids: seq<string>, view: ApplianceView): (r: States)
    ensures !hasClient ==> r == states
    ensures forall c :: c !in ids ==> (c in r <==> c in states) && (c in states ==> r[c] == states[c])
    decreases |ids|
  {
    if |ids| == 0 then states
    else
      var prefix := ids[..|ids| - 1];
      assert forall k | 0 <= k < |prefix| :: prefix[k] == ids[k];
      UpdateChannelState(hasClient, UpdateAll(hasClient, states, prefix, view), ids[|ids| - 1], view)
  }

  /** One more channel of the loop in updateChannels: refresh it on top of the earlier ones. */
  lemma UpdateAllStep(hasClient: bool, states: States, ids: seq<string>, i: nat, view: ApplianceView)
    requires i < |ids|
    ensures UpdateAll(hasClient, states, ids[..i + 1], view) ==
            UpdateChannelState(hasClient, UpdateAll(hasClient, states, ids[..i], view), ids[i], view)
  {
    assert ids[..i + 1][..i] == ids[..i];
  }

  /**
   * The listener's onEvent: the event is shown on its key's channel when the thing has that
   * channel; an active-program event then refreshes progress and remaining time from the API.
   */
  function EventEffect(hasClient: bool, channels: seq<string>, states: States, e: Event, view: ApplianceView): (r: States)
    requires e.key.Some?
    ensures e.key.value !in EventKeys() || EventChannel(e.key.value).value !in channels ==> r == states
    ensures e.key.value in EventKeys() && EventChannel(e.key.value).value in channels ==>
      var id := EventChannel(e.key.value).value; id in r && r[id] == TextState(id, e.value)
  {
    match EventChannel(e.key.value)
    case None => states
    case Some(id) =>
      if id !in channels then states
      else
        var shown := states[id := TextState(id, e.value)];
        if e.key.value != STATE_ACTIVE_PROGRAM then shown
        else
          var progress := if CHANNEL_DISHWASHER_PROGRAM_PROGRESS_STATE in channels
            then UpdateChannelState(hasClient, shown, CHANNEL_DISHWASHER_PROGRAM_PROGRESS_STATE, view) else shown;
          if CHANNEL_DISHWASHER_REMAINING_PROGRAM_TIME_STATE in channels
          then UpdateChannelState(hasClient, progress, CHANNEL_DISHWASHER_REMAINING_PROGRAM_TIME_STATE, view)
          else progress
  }

  /**
   * After an active-program event on a thing with a client, the progress channel shows what
   * the fetched active program says, and the active-program channel the event's label.
   */
  lemma ActiveProgramEventRefreshesProgress(channels: seq<string>, states: States, e: Event, view: ApplianceView)
    requires e.key == Some(STATE_ACTIVE_PROGRAM)
    requires CHANNEL_DISHWASHER_ACTIVE_PROGRAM_STATE in channels && CHANNEL_DISHWASHER_PROGRAM_PROGRESS_STATE in channels
    requires view.activeProgram.Fetched?
    ensures var r := EventEffect(true, channels, states, e, view);
      CHANNEL_DISHWASHER_PROGRAM_PROGRESS_STATE in r &&
      r[CHANNEL_DISHWASHER_PROGRAM_PROGRESS_STATE] == ProgramState(CHANNEL_DISHWASHER_PROGRAM_PROGRESS_STATE, view.activeProgram.value) &&
      CHANNEL_DISHWASHER_ACTIVE_PROGRAM_STATE in r &&
      r[CHANNEL_DISHWASHER_ACTIVE_PROGRAM_STATE] == LabelState(e.value)
  {
    assert EventChannel(STATE_ACTIVE_PROGRAM) == Some(CHANNEL_DISHWASHER_ACTIVE_PROGRAM_STATE);
    var shown := states[CHANNEL_DISHWASHER_ACTIVE_PROGRAM_STATE := TextState(CHANNEL_DISHWASHER_ACTIVE_PROGRAM_STATE, e.value)];
    FetchedProgress(view);
    var progress := UpdateChannelState(true, shown, CHANNEL_DISHWASHER_PROGRAM_PROGRESS_STATE, view);
    assert progress == shown[CHANNEL_DISHWASHER_PROGRAM_PROGRESS_STATE :=
      ProgramState(CHANNEL_DISHWASHER_PROGRAM_PROGRESS_STATE, view.activeProgram.value)];
    assert progress[CHANNEL_DISHWASHER_ACTIVE_PROGRAM_STATE] == LabelState(e.value);
    var r := EventEffect(true, channels, states, e, view);
    assert r == progress || r == UpdateChannelState(true, progress, CHANNEL_DISHWASHER_REMAINING_PROGRAM_TIME_STATE, view);
  }

  /** The progress channel's getter is the active-program getter. */
  lemma FetchedProgress(view: ApplianceView)
    requires view.activeProgram.Fetched?
    ensures FetchedState(CHANNEL_DISHWASHER_PROGRAM_PROGRESS_STATE, view) ==
      Some(ProgramState(CHANNEL_DISHWASHER_PROGRAM_PROGRESS_STATE, view.activeProgram.value))
  {
    assert IsProgramChannel(CHANNEL_DISHWASHER_PROGRAM_PROGRESS_STATE);
  }

  /** The power request of handleCommand: an on/off command on the power channel. */
  function PowerRequest(haId: string, channel: string, cmd: Command): (r: Option<Setting>)
    ensures r.Some? <==> cmd.OnOffCommand? && channel == CHANNEL_DISHWASHER_POWER_STATE
    ensures r.Some? ==> r == CommandSetting(Dishwasher, haId, CHANNEL_POWER_STATE, cmd)
  {
    if cmd.OnOffCommand? && channel == CHANNEL_DISHWASHER_POWER_STATE then
      Some(PowerSetting(haId, if cmd.on then STATE_POWER_ON else STATE_POWER_OFF))
    else None
  }

  /** The mutable fields of the handler, together. */
  datatype DishwasherSnapshot = DishwasherSnapshot(
    states: States,
    status: ThingStatus,
    bridge: Bridge,
    client: ApiClient?,
    listener: Listener?,
    sent: seq<Setting>)

  class DishwasherHandler {
    /** The haId entry of the thing's configuration. */
    const haId: string
    /** The ids of the thing's channels, in the thing's order. */
    const channels: seq<string>
    var states: States
    var status: ThingStatus
    var bridge: Bridge
    var client: ApiClient?
    var listener: Listener?
    /** The settings this handler has asked the API client to change. */
    var sent: seq<Setting>

    function Snap(): DishwasherSnapshot
      reads this
    {
      DishwasherSnapshot(states, status, bridge, client, listener, sent)
    }

    constructor (haId: string, channels: seq<string>, bridge: Bridge)
      ensures this.haId == haId && this.channels == channels
      ensures Snap() == DishwasherSnapshot(map[], Uninitialized, bridge, null, null, [])
    {
      this.haId := haId;
      this.channels := channels;
      this.bridge := bridge;
      states := map[];
      status := Uninitialized;
      client := null;
      listener := null;
      sent := [];
    }

    /** initialize: OFFLINE until the bridge hands over a client. */
    method Initialize()
      modifies this
      ensures Snap() == old(Snap()).(status := Offline(NoDetail))
    {
      status := Offline(NoDetail);
    }

    /** updateChannel. */
    method UpdateChannel(channel: string, view: ApplianceView)
      modifies this
      ensures Snap() == old(Snap()).(states := UpdateChannelState(old(client) != null, old(states), channel, view))
    {
      if client == null {
        return;
      }
      if channel == CHANNEL_DISHWASHER_OPERATION_STATE {
        if view.operationState.Fetched? {
          states := states[channel := DataState(channel, view.operationState.value)];
        }
      } else if channel == CHANNEL_DISHWASHER_DOOR_STATE {
        if view.doorState.Fetched? {
          states := states[channel := DataState(channel, view.doorState.value)];
        }
      } else if channel == CHANNEL_DISHWASHER_POWER_STATE {
        if view.powerState.Fetched? {
          states := states[channel := DataState(channel, view.powerState.value)];
        }
      } else if channel == CHANNEL_DISHWASHER_REMOTE_START_ALLOWANCE_STATE {
        if view.remoteStartAllowed.Fetched? {
          var allowed := IsRemoteFlag(view.remoteStartAllowed.value);
          states := states[channel := TextState(channel, Some(BoolText(allowed)))];
        }
      } else if channel == CHANNEL_DISHWASHER_REMOTE_CONTROL_ACTIVE_STATE {
        if view.remoteControlActive.Fetched? {
          var active := IsRemoteFlag(view.remoteControlActive.value);
          states := states[channel := TextState(channel, Some(BoolText(active)))];
        }
      } else if IsProgramChannel(channel) {
        if view.activeProgram.Fetched? {
          states := states[channel := ProgramState(channel, view.activeProgram.value)];
        }
      }
    }

    /** updateChannels: every channel of the thing, in order. */
    method UpdateChannels(view: ApplianceView)
      modifies this
      ensures Snap() == old(Snap()).(states := UpdateAll(old(client) != null, old(states), channels, view))
    {
      var i := 0;
      while i < |channels|
        invariant 0 <= i <= |channels|
        invariant states == UpdateAll(old(client) != null, old(states), channels[..i], view)
        invariant Snap() == old(Snap()).(states := states)
      {
        ghost var before := states;
        UpdateChannel(channels[i], view);
        assert states == UpdateChannelState(old(client) != null, before, channels[i], view);
        UpdateAllStep(old(client) != null, old(states), channels, i, view);
        i := i + 1;
      }
      assert channels[..|channels|] == channels;
    }

    /** The listener's onEvent; a null event key makes the switch throw, so callers pass a key. */
    method OnEvent(e: Event, view: ApplianceView)
      requires e.key.Some?
      modifies this
      ensures Snap() == old(Snap()).(states := EventEffect(old(client) != null, channels, old(states), e, view))
    {
      var id := EventChannel(e.key.value);
      if id.None? || id.value !in channels {
        return;
      }
      states := states[id.value := TextState(id.value, e.value)];
      if e.key.value == STATE_ACTIVE_PROGRAM {
        if CHANNEL_DISHWASHER_PROGRAM_PROGRESS_STATE in channels {
          UpdateChannel(CHANNEL_DISHWASHER_PROGRAM_PROGRESS_STATE, view);
        }
        if CHANNEL_DISHWASHER_REMAINING_PROGRAM_TIME_STATE in channels {
          UpdateChannel(CHANNEL_DISHWASHER_REMAINING_PROGRAM_TIME_STATE, view);
        }
      }
    }

    /** The listener's onReconnect: refresh every channel. */
    method OnReconnect(view: ApplianceView)
      modifies this
      ensures Snap() == old(Snap()).(states := UpdateAll(old(client) != null, old(states), channels, view))
    {
      UpdateChannels(view);
    }

    /** refreshConnectionStatus. */
    method RefreshConnectionStatus(answer: ApplianceAnswer)
      modifies this
      ensures Snap() == old(Snap()).(status := ConnectionStatus(old(client) != null, answer))
    {
      status := ConnectionStatus(client != null, answer);
    }

    /**
     * refreshClient: take the client (even the same one again) and a fresh listener, and
     * register it; when that succeeds refresh the status and, if ONLINE, every channel. The
     * previous listener stays registered with the previous client.
     */
    method RefreshClient(apiClient: ApiClient, grant: GrantResult, answer: ApplianceAnswer, view: ApplianceView)
      modifies this, apiClient
      ensures client == apiClient && listener != null && fresh(listener) && listener.haId == haId
      ensures var registered := Register(old(apiClient.State()), listener, grant);
        apiClient.State() == registered.reg &&
        (registered.outcome != Ready ==> Snap() == old(Snap()).(client := apiClient, listener := listener)) &&
        (registered.outcome == Ready ==>
          var st := ConnectionStatus(true, answer);
          Snap() == old(Snap()).(client := apiClient, listener := listener, status := st,
            states := if st == Online then UpdateAll(true, old(states), channels, view) else old(states)))
    {
      client := apiClient;
      var l := new Listener(haId);
      listener := l;
      var outcome := apiClient.RegisterEventListener(l, grant);
      if outcome != Ready {
        return;
      }
      RefreshConnectionStatus(answer);
      if status == Online {
        UpdateChannels(view);
      }
    }

    /** dispose: unregister the listener from the client, when there are both. */
    method Dispose()
      modifies client
      ensures client != null && listener != null ==> client.State() == Unregister(old(client.State()), listener)
      ensures client != null && listener == null ==> client.State() == old(client.State())
    {
      var c := client;
      var l := listener;
      if c != null && l != null {
        c.UnregisterEventListener(l);
      }
    }

    /**
     * handleCommand: ignore the command without a bridge, with an OFFLINE bridge or without a
     * client; REFRESH refreshes the channel; on/off on the power channel asks for the power
     * setting and then refreshes the channel from the API.
     */
    method HandleCommand(channel: string, cmd: Command, view: ApplianceView)
      modifies this
      ensures var proceeds := BridgeOnline(old(bridge)) && old(client) != null;
        var request := if proceeds then PowerRequest(haId, channel, cmd) else None;
        Snap() == old(Snap()).(
          states := if proceeds && (cmd.RefreshCommand? || request.Some?)
                    then UpdateChannelState(true, old(states), channel, view) else old(states),
          sent := old(sent) + if request.Some? then [request.value] else [])
    {
      if bridge.NoBridge? {
        return;
      }
      if bridge.offline {
        return;
      }
      if client == null {
        return;
      }
      if cmd.RefreshCommand? {
        UpdateChannel(channel, view);
      } else {
        var request := PowerRequest(haId, channel, cmd);
        if request.Some? {
          sent := sent + [request.value];
          UpdateChannel(channel, view);
        }
      }
    }
  }
}
