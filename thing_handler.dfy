/**
 * The thing handler shared by the oven, washer, dryer, dishwasher, coffee maker and
 * fridge/freezer things: its handler maps, its API client and event listener, the channel
 * refresh, the event dispatch and the command handling, with each appliance's own
 * registrations and command extension selected by the handler's ApplianceKind.
 */
module ThingHandlers {
  import opened Wrappers
  import opened Numbers
  import opened Model
  import opened Credentials
  import opened Client
  import opened Labels
  import opened Constants
  import opened Channels
  import opened Handlers

  /** Why a thing is OFFLINE, as far as the handler says. */
  datatype StatusDetail = NoDetail | ConfigurationProblem | CommunicationProblem | BridgeUninitialized

  datatype ThingStatus = Uninitialized | Online | Offline(detail: StatusDetail)

  /** The API's answer to getHomeAppliance: the appliance (or null), or a configuration or communication exception. */
  datatype ApplianceAnswer = Answered(appliance: Option<HomeAppliance>) | Failed(configuration: bool)

  /** refreshConnectionStatus: ONLINE exactly when the client reports the appliance as connected. */
  function ConnectionStatus(hasClient: bool, answer: ApplianceAnswer): (s: ThingStatus)
    ensures s == Online <==> hasClient && answer.Answered? && answer.appliance.Some? && answer.appliance.value.connected
    ensures s != Online ==> s.Offline?
    ensures !hasClient ==> s == Offline(BridgeUninitialized)
  {
    if !hasClient then Offline(BridgeUninitialized)
    else match answer
      case Answered(a) => if a.Some? && a.value.connected then Online else Offline(NoDetail)
      case Failed(configuration) => Offline(if configuration then ConfigurationProblem else CommunicationProblem)
  }

  /** The commands a channel receives. */
  datatype Command = RefreshCommand | OnOffCommand(on: bool) | QuantityCommand(amount: real, unit: string) | OtherCommand

  /** The settings the handlers ask the API client to change. */
  datatype Setting =
    | PowerSetting(haId: string, state: string)
    | FridgeSetpoint(haId: string, value: string, unit: string)
    | FreezerSetpoint(haId: string, value: string, unit: string)

  /** The setting an appliance's handleCommand extension asks for: the dishwasher's power, the fridge/freezer setpoints. */
  function CommandSetting(kind: ApplianceKind, haId: string, channel: string, cmd: Command): (r: Option<Setting>)
    ensures r.Some? <==>
      (kind == Dishwasher && cmd.OnOffCommand? && channel == CHANNEL_POWER_STATE) ||
      (kind == FridgeFreezer && cmd.QuantityCommand? &&
        (channel == CHANNEL_REFRIDGERATOR_SETPOINT_TEMPERATURE || channel == CHANNEL_FREEZER_SETPOINT_TEMPERATURE))
    ensures r.Some? ==> r.value.haId == haId
  {
    match kind
    case Dishwasher =>
      if cmd.OnOffCommand? && channel == CHANNEL_POWER_STATE then
        Some(PowerSetting(haId, if cmd.on then STATE_POWER_ON else STATE_POWER_OFF))
      else None
    case FridgeFreezer =>
      if !cmd.QuantityCommand? then None
      else
        var value := IntToString(JavaIntValue(cmd.amount));
        if channel == CHANNEL_REFRIDGERATOR_SETPOINT_TEMPERATURE then Some(FridgeSetpoint(haId, value, cmd.unit))
        else if channel == CHANNEL_FREEZER_SETPOINT_TEMPERATURE then Some(FreezerSetpoint(haId, value, cmd.unit))
        else None
    case _ => None
  }

  /** The dishwasher's ON command asks for the API's on value, every other on/off command for the off value. */
  lemma PowerCommandValue(haId: string, on: bool)
    ensures var r := CommandSetting(Dishwasher, haId, CHANNEL_POWER_STATE, OnOffCommand(on));
      r.Some? && r.value.PowerSetting? && (r.value.state == STATE_POWER_ON <==> on) &&
      (r.value.state == STATE_POWER_ON || r.value.state == STATE_POWER_OFF)
  {
  }

  /**
   * A setpoint is sent as the decimal text of the quantity's intValue (truncated, 32-bit), with
   * the quantity's unit: read back with getValueAsInt it is exactly that int.
   */
  lemma SetpointCommandValue(haId: string, channel: string, amount: real, unit: string)
    requires channel == CHANNEL_REFRIDGERATOR_SETPOINT_TEMPERATURE || channel == CHANNEL_FREEZER_SETPOINT_TEMPERATURE
    ensures var r := CommandSetting(FridgeFreezer, haId, channel, QuantityCommand(amount, unit));
      r.Some? && !r.value.PowerSetting? && r.value.unit == unit &&
      IntValued(Some(r.value.value)) && IntValue(Some(r.value.value)) == JavaIntValue(amount)
  {
    IntValueOfWritten(JavaIntValue(amount));
  }

  /** What the subclasses' handleCommand does about a setting, as written. */
  datatype CommandOutcome = NoRequest | Requested(setting: Setting) | NullPointerThrown

  /**
   * handleCommand of the dishwasher and fridge/freezer handlers as written: the setter runs
   * after super.handleCommand whether or not the base method gave up (no bridge, bridge
   * OFFLINE, no client); without a client getClient() is null and the call throws.
   */
  function CommandAsWritten(kind: ApplianceKind, haId: string, hasClient: bool, channel: string, cmd: Command): (r: CommandOutcome)
    ensures CommandSetting(kind, haId, channel, cmd).None? <==> r == NoRequest
  {
    match CommandSetting(kind, haId, channel, cmd)
    case None => NoRequest
    case Some(setting) => if hasClient then Requested(setting) else NullPointerThrown
  }

  /** handleCommand as intended: a setting is requested only where the base method goes on (bridge online, a client). */
  function CommandRequest(kind: ApplianceKind, haId: string, bridge: Bridge, hasClient: bool, channel: string, cmd: Command): (r: Option<Setting>)
    ensures r.Some? ==> BridgeOnline(bridge) && hasClient
    ensures BridgeOnline(bridge) && hasClient ==> r == CommandSetting(kind, haId, channel, cmd)
  {
    if BridgeOnline(bridge) && hasClient then CommandSetting(kind, haId, channel, cmd) else None
  }

  /** The written handleCommand requests the setting (or throws) even where the base method ignored the command. */
  lemma CommandDiscrepancy(kind: ApplianceKind, haId: string, bridge: Bridge, hasClient: bool, channel: string, cmd: Command)
    requires CommandSetting(kind, haId, channel, cmd).Some?
    requires !BridgeOnline(bridge) || !hasClient
    ensures CommandAsWritten(kind, haId, hasClient, channel, cmd) != NoRequest
    ensures CommandRequest(kind, haId, bridge, hasClient, channel, cmd) == None
  {
  }

  /** A dishwasher behind an OFFLINE bridge: switching it on still sends the power request. */
  lemma OfflineDishwasherSwitchedOn(haId: string)
    ensures CommandAsWritten(Dishwasher, haId, true, CHANNEL_POWER_STATE, OnOffCommand(true)) ==
      Requested(PowerSetting(haId, STATE_POWER_ON))
    ensures CommandRequest(Dishwasher, haId, Bridge(true), true, CHANNEL_POWER_STATE, OnOffCommand(true)) == None
  {
  }

  /** The mutable fields of a thing handler, together. */
  datatype Snapshot = Snapshot(
    states: States,
    status: ThingStatus,
    bridge: Bridge,
    eventHandlers: map<string, EventHandler>,
    channelUpdateHandlers: map<string, UpdateHandler>,
    client: ApiClient?,
    listener: Listener?,
    sent: seq<Setting>)

  class ThingHandler {
    const kind: ApplianceKind
    /** The haId entry of the thing's configuration. */
    const haId: string
    /** The ids of the thing's channels, in the thing's order. */
    const channels: seq<string>
    var states: States
    var status: ThingStatus
    var bridge: Bridge
    var eventHandlers: map<string, EventHandler>
    var channelUpdateHandlers: map<string, UpdateHandler>
    var client: ApiClient?
    var listener: Listener?
    /** The settings this handler has asked the API client to change. */
    var sent: seq<Setting>

    function Snap(): Snapshot
      reads this
    {
      Snapshot(states, status, bridge, eventHandlers, channelUpdateHandlers, client, listener, sent)
    }

    function Ctx(): Ctx
      reads this
    {
      Handlers.Ctx(kind, channels, bridge, client != null, channelUpdateHandlers)
    }

    /** Construction registers the appliance's event and update handlers, in its constructor's order. */
    constructor (kind: ApplianceKind, haId: string, channels: seq<string>, bridge: Bridge)
      ensures this.kind == kind && this.haId == haId && this.channels == channels
      ensures Snap() == Snapshot(map[], Uninitialized, bridge, Table(EventRegistrations(kind)),
                                 Table(UpdateRegistrations(kind)), null, null, [])
    {
      this.kind := kind;
      this.haId := haId;
      this.channels := channels;
      this.bridge := bridge;
      states := map[];
      status := Uninitialized;
      eventHandlers := map[];
      channelUpdateHandlers := map[];
      client := null;
      listener := null;
      sent := [];
      new;
      RegisterEventHandlers(EventRegistrations(kind));
      RegisterChannelUpdateHandlers(UpdateRegistrations(kind));
    }

    /** The constructor's run of registerEventHandler calls, in order, on an empty table. */
    method RegisterEventHandlers(events: seq<(string, EventHandler)>)
      requires eventHandlers == map[]
      modifies this
      ensures Snap() == old(Snap()).(eventHandlers := Table(events))
    {
      var i := 0;
      while i < |events|
        invariant 0 <= i <= |events|
        invariant Snap() == old(Snap()).(eventHandlers := Table(events[..i]))
      {
        RegisterEventHandler(events[i].0, events[i].1);
        assert events[..i + 1][..i] == events[..i];
        i := i + 1;
      }
      assert events[..|events|] == events;
    }

    /** The constructor's run of registerChannelUpdateHandler calls, in order, on an empty table. */
    method RegisterChannelUpdateHandlers(updates: seq<(string, UpdateHandler)>)
      requires channelUpdateHandlers == map[]
      modifies this
      ensures Snap() == old(Snap()).(channelUpdateHandlers := Table(updates))
    {
      var i := 0;
      while i < |updates|
        invariant 0 <= i <= |updates|
        invariant Snap() == old(Snap()).(channelUpdateHandlers := Table(updates[..i]))
      {
        RegisterChannelUpdateHandler(updates[i].0, updates[i].1);
        assert updates[..i + 1][..i] == updates[..i];
        i := i + 1;
      }
      assert updates[..|updates|] == updates;
    }

    /** registerEventHandler: a later registration for the same key replaces the earlier one. */
    method RegisterEventHandler(key: string, h: EventHandler)
      modifies this
      ensures Snap() == old(Snap()).(eventHandlers := old(eventHandlers)[key := h])
    {
      eventHandlers := eventHandlers[key := h];
    }

    method UnregisterEventHandler(key: string)
      modifies this
      ensures Snap() == old(Snap()).(eventHandlers := old(eventHandlers) - {key})
    {
      eventHandlers := eventHandlers - {key};
    }

    method RegisterChannelUpdateHandler(channel: string, u: UpdateHandler)
      modifies this
      ensures Snap() == old(Snap()).(channelUpdateHandlers := old(channelUpdateHandlers)[channel := u])
    {
      channelUpdateHandlers := channelUpdateHandlers[channel := u];
    }

    method UnregisterChannelUpdateHandler(channel: string)
      modifies this
      ensures Snap() == old(Snap()).(channelUpdateHandlers := old(channelUpdateHandlers) - {channel})
    {
      channelUpdateHandlers := channelUpdateHandlers - {channel};
    }

    /** getThingChannel(id).ifPresent(c -> updateState(c, v)). */
    method SetState(id: string, v: State)
      modifies this
      ensures Snap() == old(Snap()).(states := SetChannel(channels, old(states), id, v))
    {
      var c := ThingChannel(channels, id);
      if c.Some? {
        states := states[c.value := v];
      }
    }

    /** Unfolds the two-channel reset shared by the washer, dryer and dishwasher. */
    static lemma ResetTwoUnfolds(channels: seq<string>, states: States)
      ensures NullChannels(channels, states, [CHANNEL_REMAINING_PROGRAM_TIME_STATE, CHANNEL_PROGRAM_PROGRESS_STATE])
           == SetChannel(channels, SetChannel(channels, states, CHANNEL_REMAINING_PROGRAM_TIME_STATE, NULL),
                         CHANNEL_PROGRAM_PROGRESS_STATE, NULL)
    {
      var ids := [CHANNEL_REMAINING_PROGRAM_TIME_STATE, CHANNEL_PROGRAM_PROGRESS_STATE];
      assert ids[..1] == [CHANNEL_REMAINING_PROGRAM_TIME_STATE];
      assert ids[..1][..0] == [];
      assert NullChannels(channels, states, ids[..1])
          == SetChannel(channels, states, CHANNEL_REMAINING_PROGRAM_TIME_STATE, NULL);
    }

    /** Unfolds the coffee maker's one-channel reset. */
    static lemma ResetOneUnfolds(channels: seq<string>, states: States)
      ensures NullChannels(channels, states, [CHANNEL_PROGRAM_PROGRESS_STATE])
           == SetChannel(channels, states, CHANNEL_PROGRAM_PROGRESS_STATE, NULL)
    {
      var ids := [CHANNEL_PROGRAM_PROGRESS_STATE];
      assert ids[..0] == [];
    }

    /** Unfolds the oven's three-channel reset. */
    static lemma ResetThreeUnfolds(channels: seq<string>, states: States)
      ensures NullChannels(channels, states, [CHANNEL_REMAINING_PROGRAM_TIME_STATE, CHANNEL_PROGRAM_PROGRESS_STATE, CHANNEL_ELAPSED_PROGRAM_TIME])
           == SetChannel(channels, NullChannels(channels, states, [CHANNEL_REMAINING_PROGRAM_TIME_STATE, CHANNEL_PROGRAM_PROGRESS_STATE]),
                         CHANNEL_ELAPSED_PROGRAM_TIME, NULL)
    {
      var ids := [CHANNEL_REMAINING_PROGRAM_TIME_STATE, CHANNEL_PROGRAM_PROGRESS_STATE, CHANNEL_ELAPSED_PROGRAM_TIME];
      assert ids[..2] == [CHANNEL_REMAINING_PROGRAM_TIME_STATE, CHANNEL_PROGRAM_PROGRESS_STATE];
    }

    /** resetProgramStateChannels of each appliance (the fridge/freezer has none). */
    method ResetProgramStateChannels()
      modifies this
      ensures Snap() == old(Snap()).(states := ResetProgram(kind, channels, old(states)))
    {
      match kind
      case Oven =>
        ResetThreeUnfolds(channels, states);
        ResetTwoUnfolds(channels, states);
        SetState(CHANNEL_REMAINING_PROGRAM_TIME_STATE, NULL);
        SetState(CHANNEL_PROGRAM_PROGRESS_STATE, NULL);
        SetState(CHANNEL_ELAPSED_PROGRAM_TIME, NULL);
      case CoffeeMaker =>
        ResetOneUnfolds(channels, states);
        SetState(CHANNEL_PROGRAM_PROGRESS_STATE, NULL);
      case FridgeFreezer =>
      case Washer =>
        ResetTwoUnfolds(channels, states);
        SetState(CHANNEL_REMAINING_PROGRAM_TIME_STATE, NULL);
        SetState(CHANNEL_PROGRAM_PROGRESS_STATE, NULL);
      case Dryer =>
        ResetTwoUnfolds(channels, states);
        SetState(CHANNEL_REMAINING_PROGRAM_TIME_STATE, NULL);
        SetState(CHANNEL_PROGRAM_PROGRESS_STATE, NULL);
      case Dishwasher =>
        ResetTwoUnfolds(channels, states);
        SetState(CHANNEL_REMAINING_PROGRAM_TIME_STATE, NULL);
        SetState(CHANNEL_PROGRAM_PROGRESS_STATE, NULL);
    }

    /** resetAllChannels: NULL on every channel of the thing except power. */
    method ResetAllChannels()
      modifies this
      ensures Snap() == old(Snap()).(states := ResetAll(old(states), channels))
    {
      var i := 0;
      while i < |channels|
        invariant 0 <= i <= |channels|
        invariant Snap() == old(Snap()).(states := ResetAll(old(states), channels[..i]))
      {
        if channels[i] != CHANNEL_POWER_STATE {
          states := states[channels[i] := NULL];
        }
        assert channels[..i + 1][..i] == channels[..i];
        i := i + 1;
      }
      assert channels[..|channels|] == channels;
    }

    /** program.getOptions().forEach(option -> switch (option.getKey()) ...). */
    method ApplyProgramOptions(active: bool, options: seq<ProgramOption>)
      requires OptionsReadable(kind, active, options)
      modifies this
      ensures Snap() == old(Snap()).(states := ApplyOptions(kind, active, channels, old(states), options))
    {
      var i := 0;
      while i < |options|
        invariant 0 <= i <= |options|
        invariant Snap() == old(Snap()).(states := ApplyOptions(kind, active, channels, old(states), options[..i]))
      {
        var o := options[i];
        assert OptionReadable(kind, active, o);
        match RuleFor(kind, active, o.key.value) {
          case None =>
          case Some(rule) =>
            SetState(RuleChannel(rule), RuleState(rule, o));
        }
        assert options[..i + 1][..i] == options[..i];
        i := i + 1;
      }
      assert options[..|options|] == options;
    }

    /** The body of a program update handler once the program is fetched. */
    method UpdateFromProgram(channel: string, active: bool, p: Option<Program>)
      requires p.Some? && p.value.key.Some? && SwitchesOnOptions(kind, active) ==> OptionsReadable(kind, active, p.value.options)
      modifies this
      ensures Snap() == old(Snap()).(states := ProgramUpdateEffect(kind, channels, old(states), channel, active, p))
    {
      if p.Some? && p.value.key.Some? {
        var text := MapStringType(p.value.key.value);
        states := states[channel := Str(text)];
        if SwitchesOnOptions(kind, active) {
          ApplyProgramOptions(active, p.value.options);
        }
      } else {
        states := states[channel := NULL];
        ResetProgramStateChannels();
      }
    }

    /** ChannelUpdateHandler.handle: what each registered update handler does with the client's answers. */
    method RunUpdateHandler(channel: string, u: UpdateHandler, view: ApplianceView)
      requires UpdateReadable(kind, u, view)
      modifies this
      ensures Snap() == old(Snap()).(states := RunUpdate(kind, channels, old(states), channel, u, view))
    {
      match u
      case DoorUpdate =>
        if view.doorState.Fetched? {
          var d := view.doorState.value;
          states := states[channel := if HasValue(d) then DoorState(d.value.value) else NULL];
        }
      case PowerUpdate =>
        if view.powerState.Fetched? {
          var d := view.powerState.value;
          states := states[channel := if HasValue(d) then PowerState(d.value.value) else NULL];
        }
      case OperationUpdate =>
        if view.operationState.Fetched? {
          var d := view.operationState.value;
          states := states[channel := if HasValue(d) then LabelState(d.value.value) else NULL];
        }
      case RemoteControlActiveUpdate =>
        if view.remoteControlActive.Fetched? {
          states := states[channel := Switch(IsRemoteFlag(view.remoteControlActive.value))];
        }
      case RemoteStartAllowanceUpdate =>
        if view.remoteStartAllowed.Fetched? {
          states := states[channel := Switch(IsRemoteFlag(view.remoteStartAllowed.value))];
        }
      case SelectedProgramDefaultUpdate =>
      case ProgramUpdate(active) =>
        var fetch := if active then view.activeProgram else view.selectedProgram;
        if fetch.Fetched? {
          UpdateFromProgram(channel, active, fetch.value);
        }
      case SelectedOptionUpdate(key, temperature) =>
        var fetch := view.selectedProgram;
        if fetch.Fetched? && fetch.value.Some? && fetch.value.value.key.Some? {
          var options := fetch.value.value.options;
          var found := FirstWithKey(options, key);
          if found.Some? {
            var o := options[found.value];
            states := states[channel := Quantity(IntValue(o.value), if temperature then Temperature(o.unit) else Seconds)];
          } else {
            states := states[channel := NULL];
          }
        }
      case SetpointUpdate(freezer) =>
        var fetch := if freezer then view.freezerSetpoint else view.fridgeSetpoint;
        if fetch.Fetched? {
          var d := fetch.value;
          states := states[channel := if HasValue(d) then Quantity(IntValue(d.value.value), Temperature(d.value.unit)) else NULL];
        }
      case SuperModeUpdate(freezer) =>
        var fetch := if freezer then view.freezerSuperMode else view.fridgeSuperMode;
        if fetch.Fetched? {
          var d := fetch.value;
          states := states[channel := if HasValue(d) then Switch(d.value.ValueAsBoolean()) else NULL];
        }
    }

    /** updateChannel: give up without a client or an online bridge; run the channel's handler if it has one. */
    method UpdateChannel(channel: string, view: ApplianceView)
      requires channel in channelUpdateHandlers ==> UpdateReadable(kind, channelUpdateHandlers[channel], view)
      modifies this
      ensures Snap() == old(Snap()).(states := Handlers.UpdateChannel(old(Ctx()), old(states), channel, view))
    {
      if client == null {
        return;
      }
      if !BridgeOnline(bridge) {
        return;
      }
      if channel in channelUpdateHandlers {
        RunUpdateHandler(channel, channelUpdateHandlers[channel], view);
      }
    }

    /** updateChannels: give up without an online bridge; otherwise updateChannel on every channel of the thing. */
    method UpdateChannels(view: ApplianceView)
      requires UpdatesReadable(Ctx(), view)
      modifies this
      ensures Snap() == old(Snap()).(states := Handlers.UpdateChannels(old(Ctx()), old(states), view))
    {
      if !BridgeOnline(bridge) {
        return;
      }
      var i := 0;
      while i < |channels|
        invariant 0 <= i <= |channels|
        invariant Ctx() == old(Ctx())
        invariant Snap() == old(Snap()).(states := UpdateEach(Ctx(), old(states), channels[..i], view))
      {
        assert channels[i] in channels;
        UpdateChannel(channels[i], view);
        assert channels[..i + 1][..i] == channels[..i];
        i := i + 1;
      }
      assert channels[..|channels|] == channels;
    }

    /** EventHandler.handle: what each registered event handler does with an event. */
    method HandleEvent(h: EventHandler, e: Event, view: ApplianceView)
      requires EventReadable(Ctx(), h, e, view)
      modifies this
      ensures Snap() == old(Snap()).(states := RunEvent(old(Ctx()), old(states), h, e, view))
    {
      match h
      case SelectedProgramDefaultEvent =>
      case DisconnectedEvent(powerOff) => HandleDisconnected(powerOff, e, view);
      case ConnectedEvent(powerOn) => HandleConnected(powerOn, e, view);
      case OvenPowerEvent => HandleOvenPower(e, view);
      case DishwasherPowerEvent => HandleDishwasherPower(e, view);
      case ActiveProgramEvent(refresh) => HandleActiveProgram(refresh, e, view);
      case _ =>
        SetState(SingleChannel(h).value, SingleState(h, e));
    }

    /** The handler for a lost connection: power OFF where the appliance sets it, then every channel reset. */
    method HandleDisconnected(powerOff: bool, e: Event, view: ApplianceView)
      modifies this
      ensures Snap() == old(Snap()).(states := RunEvent(old(Ctx()), old(states), DisconnectedEvent(powerOff), e, view))
    {
      if powerOff {
        SetState(CHANNEL_POWER_STATE, OFF);
      }
      ResetAllChannels();
    }

    /** The handler for a connection: power ON where the appliance sets it, the program channels reset, every channel refreshed. */
    method HandleConnected(powerOn: bool, e: Event, view: ApplianceView)
      requires EventReadable(Ctx(), ConnectedEvent(powerOn), e, view)
      modifies this
      ensures Snap() == old(Snap()).(states := RunEvent(old(Ctx()), old(states), ConnectedEvent(powerOn), e, view))
    {
      if powerOn {
        SetState(CHANNEL_POWER_STATE, ON);
      }
      ResetProgramStateChannels();
      UpdateChannels(view);
    }

    /** The oven's power handler: the power state, then a refresh when on or a full reset when off. */
    method HandleOvenPower(e: Event, view: ApplianceView)
      requires EventReadable(Ctx(), OvenPowerEvent, e, view)
      modifies this
      ensures Snap() == old(Snap()).(states := RunEvent(old(Ctx()), old(states), OvenPowerEvent, e, view))
    {
      SetState(CHANNEL_POWER_STATE, PowerState(e.value));
      if e.value == Some(STATE_POWER_ON) {
        ResetProgramStateChannels();
        UpdateChannels(view);
      } else {
        ResetAllChannels();
      }
    }

    /** The dishwasher's power handler: the power state, and when not on the program channels cleared. */
    method HandleDishwasherPower(e: Event, view: ApplianceView)
      modifies this
      ensures Snap() == old(Snap()).(states := RunEvent(old(Ctx()), old(states), DishwasherPowerEvent, e, view))
    {
      SetState(CHANNEL_POWER_STATE, PowerState(e.value));
      if e.value != Some(STATE_POWER_ON) {
        ResetProgramStateChannels();
        SetState(CHANNEL_SELECTED_PROGRAM_STATE, NULL);
        SetState(CHANNEL_ACTIVE_PROGRAM_STATE, NULL);
      }
    }

    /** The active-program handler: the label, then a program reset when it ended or a refresh of the channel. */
    method HandleActiveProgram(refresh: bool, e: Event, view: ApplianceView)
      requires EventReadable(Ctx(), ActiveProgramEvent(refresh), e, view)
      modifies this
      ensures Snap() == old(Snap()).(states := RunEvent(old(Ctx()), old(states), ActiveProgramEvent(refresh), e, view))
    {
      var c := ThingChannel(channels, CHANNEL_ACTIVE_PROGRAM_STATE);
      if c.Some? {
        states := states[c.value := LabelState(e.value)];
        if e.value.None? {
          ResetProgramStateChannels();
        } else if refresh {
          UpdateChannel(c.value, view);
        }
      }
    }

    /** The listener's onEvent: run the handler registered for the event's key, ignore an event nobody registered for. */
    method OnEvent(e: Event, view: ApplianceView)
      requires e.key.Some?
      requires e.key.value in eventHandlers ==> EventReadable(Ctx(), eventHandlers[e.key.value], e, view)
      modifies this
      ensures e.key.value !in old(eventHandlers) ==> Snap() == old(Snap())
      ensures e.key.value in old(eventHandlers) ==>
        Snap() == old(Snap()).(states := RunEvent(old(Ctx()), old(states), old(eventHandlers)[e.key.value], e, view))
    {
      if e.key.value in eventHandlers {
        HandleEvent(eventHandlers[e.key.value], e, view);
      }
    }

    /** refreshConnectionStatus. */
    method RefreshConnectionStatus(answer: ApplianceAnswer)
      modifies this
      ensures Snap() == old(Snap()).(status := ConnectionStatus(old(client) != null, answer))
    {
      status := ConnectionStatus(client != null, answer);
    }

    /**
     * refreshClient: only a different client instance is taken (the client class keeps
     * Object's identity equals). A fresh listener for the thing's haId is registered with
     * it; when that succeeds the status is refreshed and, if ONLINE, every channel.
     */
    method RefreshClient(apiClient: ApiClient, grant: GrantResult, answer: ApplianceAnswer, view: ApplianceView)
      requires UpdatesReadable(Ctx(), view)
      modifies this, apiClient
      ensures apiClient == old(client) ==> Snap() == old(Snap()) && apiClient.State() == old(apiClient.State())
      ensures apiClient != old(client) ==>
        client == apiClient && listener != null && fresh(listener) && listener.haId == haId &&
        var registered := Register(old(apiClient.State()), listener, grant);
        apiClient.State() == registered.reg &&
        (registered.outcome != Ready ==> Snap() == old(Snap()).(client := apiClient, listener := listener)) &&
        (registered.outcome == Ready ==>
          var st := ConnectionStatus(true, answer);
          Snap() == old(Snap()).(client := apiClient, listener := listener, status := st,
            states := if st == Online then Handlers.UpdateChannels(old(Ctx()).(hasClient := true), old(states), view)
                      else old(states)))
    {
      if apiClient == client {
        return;
      }
      client := apiClient;
      var l := new Listener(haId);
      listener := l;
      var outcome := apiClient.RegisterEventListener(l, grant);
      if outcome != Ready {
        return;
      }
      RefreshConnectionStatus(answer);
      if status == Online {
        UpdateChannels(view);
      }
    }

    /** initialize: OFFLINE, then with a client re-register the listener, refresh every channel and the status. */
    method Initialize(grant: GrantResult, answer: ApplianceAnswer, view: ApplianceView)
      requires UpdatesReadable(Ctx(), view)
      modifies this, client
      ensures client == old(client) && listener == old(listener)
      ensures client == null ==> Snap() == old(Snap()).(status := Offline(NoDetail))
      ensures client != null && listener == null ==>
        client.State() == old(client.State()) &&
        Snap() == old(Snap()).(status := ConnectionStatus(true, answer),
                               states := Handlers.UpdateChannels(old(Ctx()), old(states), view))
      ensures client != null && listener != null ==>
        client.State() == Register(Unregister(old(client.State()), listener), listener, grant).reg &&
        Snap() == old(Snap()).(status := ConnectionStatus(true, answer),
                               states := Handlers.UpdateChannels(old(Ctx()), old(states), view))
    {
      status := Offline(NoDetail);
      var c := client;
      if c != null {
        var l := listener;
        if l != null {
          c.UnregisterEventListener(l);
          var outcome := c.RegisterEventListener(l, grant);
        }
        UpdateChannels(view);
        RefreshConnectionStatus(answer);
      }
    }

    /** dispose: unregister the listener from the client, when there are both. */
    method Dispose()
      modifies client
      ensures client != null && listener != null ==> client.State() == Unregister(old(client.State()), listener)
      ensures client != null && listener == null ==> client.State() == old(client.State())
    {
      var c := client;
      var l := listener;
      if c != null && l != null {
        c.UnregisterEventListener(l);
      }
    }

    /**
     * handleCommand: ignore the command without a bridge, with an OFFLINE bridge or without a
     * client; refresh the channel on REFRESH; then the appliance's own extension asks for its
     * setting (the corrected order: only where the base method went on).
     */
    method HandleCommand(channel: string, cmd: Command, view: ApplianceView)
      requires cmd.RefreshCommand? && channel in channelUpdateHandlers ==>
        UpdateReadable(kind, channelUpdateHandlers[channel], view)
      modifies this
      ensures var proceeds := BridgeOnline(old(bridge)) && old(client) != null;
        var request := CommandRequest(kind, haId, old(bridge), old(client) != null, channel, cmd);
        Snap() == old(Snap()).(
          states := if proceeds && cmd.RefreshCommand? then Handlers.UpdateChannel(old(Ctx()), old(states), channel, view)
                    else old(states),
          sent := old(sent) + if request.Some? then [request.value] else [])
    {
      if bridge.NoBridge? {
        return;
      }
      if bridge.offline {
        return;
      }
      if client == null {
        return;
      }
      if cmd.RefreshCommand? {
        UpdateChannel(channel, view);
      }
      var setting := CommandSetting(kind, haId, channel, cmd);
      if setting.Some? {
        sent := sent + [setting.value];
      }
    }
  }
}
