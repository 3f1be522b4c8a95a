/**
 * The event handlers and channel-update handlers of the appliance things, defunctionalised:
 * each lambda the handlers register becomes a constructor of EventHandler or UpdateHandler,
 * and what running it does to the channel states is a function of the handler, the thing
 * and what the API client answers (an ApplianceView).
 */
module Handlers {
  import opened Wrappers
  import opened Model
  import opened Credentials
  import opened Labels
  import opened Constants
  import opened Channels

  /** One answer of an API getter: a value, or a configuration or communication exception. */
  datatype Fetch<T> = Fetched(value: T) | FetchFailed

  /** What the API client's getters answer for the thing's appliance while a handler runs. */
  datatype ApplianceView = ApplianceView(
    powerState: Fetch<Option<Data>>,
    doorState: Fetch<Option<Data>>,
    operationState: Fetch<Option<Data>>,
    remoteControlActive: Fetch<Option<Data>>,
    remoteStartAllowed: Fetch<Option<Data>>,
    activeProgram: Fetch<Option<Program>>,
    selectedProgram: Fetch<Option<Program>>,
    fridgeSetpoint: Fetch<Option<Data>>,
    freezerSetpoint: Fetch<Option<Data>>,
    fridgeSuperMode: Fetch<Option<Data>>,
    freezerSuperMode: Fetch<Option<Data>>)

  /** The bridge of a thing: none, or one whose status is or is not OFFLINE. */
  datatype Bridge = NoBridge | Bridge(offline: bool)

  predicate BridgeOnline(b: Bridge) {
    b.Bridge? && !b.offline
  }

  /** A registered event handler. */
  datatype EventHandler =
    | ElapsedTimeEvent
    | PowerStateEvent
    | DoorStateEvent
    | OperationStateEvent
    | BooleanEvent(channel: string)
    | RemainingTimeEvent
    | ProgramProgressEvent
    | SelectedProgramDefaultEvent
    | TemperatureEvent(channel: string)
    | DurationEvent(channel: string)
    | DisconnectedEvent(powerOff: bool)
    | ConnectedEvent(powerOn: bool)
    | OvenPowerEvent
    | DishwasherPowerEvent
    | ActiveProgramEvent(refresh: bool)
    | WasherTemperatureEvent
    | WasherSpinSpeedEvent
    | LabelEvent(channel: string)

  /** A registered channel-update handler. */
  datatype UpdateHandler =
    | DoorUpdate
    | PowerUpdate
    | OperationUpdate
    | RemoteControlActiveUpdate
    | RemoteStartAllowanceUpdate
    | SelectedProgramDefaultUpdate
    | ProgramUpdate(active: bool)
    | SelectedOptionUpdate(option: string, temperature: bool)
    | SetpointUpdate(freezer: bool)
    | SuperModeUpdate(freezer: bool)

  /** The event a handler is meant for: its own event, or the one that reports the channel it writes. */
  predicate Handles(key: string, h: EventHandler) {
    match h
    case ElapsedTimeEvent => key == EVENT_ELAPSED_PROGRAM_TIME
    case PowerStateEvent => key == EVENT_POWER_STATE
    case DoorStateEvent => key == EVENT_DOOR_STATE
    case OperationStateEvent => key == EVENT_OPERATION_STATE
    case BooleanEvent(c) =>
      || (key == EVENT_REMOTE_CONTROL_ACTIVE && c == CHANNEL_REMOTE_CONTROL_ACTIVE_STATE)
      || (key == EVENT_REMOTE_CONTROL_START_ALLOWED && c == CHANNEL_REMOTE_START_ALLOWANCE_STATE)
      || (key == EVENT_FREEZER_SUPER_MODE && c == CHANNEL_FREEZER_SUPER_MODE)
      || (key == EVENT_FRIDGE_SUPER_MODE && c == CHANNEL_REFRIDGERATOR_SUPER_MODE)
    case RemainingTimeEvent => key == EVENT_REMAINING_PROGRAM_TIME
    case ProgramProgressEvent => key == EVENT_PROGRAM_PROGRESS
    case SelectedProgramDefaultEvent => key == EVENT_SELECTED_PROGRAM
    case TemperatureEvent(c) =>
      || (key == EVENT_OVEN_CAVITY_TEMPERATURE && c == CHANNEL_OVEN_CURRENT_CAVITY_TEMPERATURE)
      || (key == EVENT_SETPOINT_TEMPERATURE && c == CHANNEL_SETPOINT_TEMPERATURE)
      || (key == EVENT_FREEZER_SETPOINT_TEMPERATURE && c == CHANNEL_FREEZER_SETPOINT_TEMPERATURE)
      || (key == EVENT_FRIDGE_SETPOINT_TEMPERATURE && c == CHANNEL_REFRIDGERATOR_SETPOINT_TEMPERATURE)
    case DurationEvent(c) => key == EVENT_DURATION && c == CHANNEL_DURATION
    case DisconnectedEvent(_) => key == EVENT_DISCONNECTED
    case ConnectedEvent(_) => key == EVENT_CONNECTED
    case OvenPowerEvent => key == EVENT_POWER_STATE
    case DishwasherPowerEvent => key == EVENT_POWER_STATE
    case ActiveProgramEvent(_) => key == EVENT_ACTIVE_PROGRAM
    case WasherTemperatureEvent => key == EVENT_WASHER_TEMPERATURE
    case WasherSpinSpeedEvent => key == EVENT_WASHER_SPIN_SPEED
    case LabelEvent(c) => key == EVENT_DRYER_DRYING_TARGET && c == CHANNEL_DRYER_DRYING_TARGET
  }

  /** registerEventHandler calls, in the order each appliance's constructor makes them. */
  function EventRegistrations(kind: ApplianceKind): (r: seq<(string, EventHandler)>)
    ensures forall i | 0 <= i < |r| :: Handles(r[i].0, r[i].1)
  {
    match kind
    case Oven => OvenEvents()
    case Washer => WasherEvents()
    case Dryer => DryerEvents()
    case Dishwasher => DishwasherEvents()
    case CoffeeMaker => CoffeeMakerEvents()
    case FridgeFreezer => FridgeFreezerEvents()
  }

  /** The event handlers the oven handler's constructor registers. */
  function OvenEvents(): (r: seq<(string, EventHandler)>)
    ensures forall i | 0 <= i < |r| :: Handles(r[i].0, r[i].1)
  {
    [
      (EVENT_ELAPSED_PROGRAM_TIME, ElapsedTimeEvent),
      (EVENT_DOOR_STATE, DoorStateEvent),
      (EVENT_OPERATION_STATE, OperationStateEvent),
      (EVENT_REMOTE_CONTROL_ACTIVE, BooleanEvent(CHANNEL_REMOTE_CONTROL_ACTIVE_STATE)),
      (EVENT_REMOTE_CONTROL_START_ALLOWED, BooleanEvent(CHANNEL_REMOTE_START_ALLOWANCE_STATE)),
      (EVENT_REMAINING_PROGRAM_TIME, RemainingTimeEvent),
      (EVENT_PROGRAM_PROGRESS, ProgramProgressEvent),
      (EVENT_SELECTED_PROGRAM, SelectedProgramDefaultEvent),
      (EVENT_OVEN_CAVITY_TEMPERATURE, TemperatureEvent(CHANNEL_OVEN_CURRENT_CAVITY_TEMPERATURE)),
      (EVENT_DISCONNECTED, DisconnectedEvent(true)),
      (EVENT_CONNECTED, ConnectedEvent(true)),
      (EVENT_POWER_STATE, OvenPowerEvent),
      (EVENT_ACTIVE_PROGRAM, ActiveProgramEvent(false)),
      (EVENT_SETPOINT_TEMPERATURE, TemperatureEvent(CHANNEL_SETPOINT_TEMPERATURE)),
      (EVENT_DURATION, DurationEvent(CHANNEL_DURATION))]
  }

  /** The event handlers the washer handler's constructor registers. */
  function WasherEvents(): (r: seq<(string, EventHandler)>)
    ensures forall i | 0 <= i < |r| :: Handles(r[i].0, r[i].1)
  {
    [
      (EVENT_DOOR_STATE, DoorStateEvent),
      (EVENT_OPERATION_STATE, OperationStateEvent),
      (EVENT_REMOTE_CONTROL_START_ALLOWED, BooleanEvent(CHANNEL_REMOTE_START_ALLOWANCE_STATE)),
      (EVENT_REMOTE_CONTROL_ACTIVE, BooleanEvent(CHANNEL_REMOTE_CONTROL_ACTIVE_STATE)),
      (EVENT_ACTIVE_PROGRAM, ActiveProgramEvent(true)),
      (EVENT_REMAINING_PROGRAM_TIME, RemainingTimeEvent),
      (EVENT_PROGRAM_PROGRESS, ProgramProgressEvent),
      (EVENT_SELECTED_PROGRAM, SelectedProgramDefaultEvent),
      (EVENT_WASHER_TEMPERATURE, WasherTemperatureEvent),
      (EVENT_WASHER_SPIN_SPEED, WasherSpinSpeedEvent),
      (EVENT_DISCONNECTED, DisconnectedEvent(false)),
      (EVENT_CONNECTED, ConnectedEvent(false))]
  }

  /** The event handlers the dryer handler's constructor registers. */
  function DryerEvents(): (r: seq<(string, EventHandler)>)
    ensures forall i | 0 <= i < |r| :: Handles(r[i].0, r[i].1)
  {
    [
      (EVENT_DOOR_STATE, DoorStateEvent),
      (EVENT_OPERATION_STATE, OperationStateEvent),
      (EVENT_REMOTE_CONTROL_START_ALLOWED, BooleanEvent(CHANNEL_REMOTE_START_ALLOWANCE_STATE)),
      (EVENT_REMOTE_CONTROL_ACTIVE, BooleanEvent(CHANNEL_REMOTE_CONTROL_ACTIVE_STATE)),
      (EVENT_ACTIVE_PROGRAM, ActiveProgramEvent(true)),
      (EVENT_REMAINING_PROGRAM_TIME, RemainingTimeEvent),
      (EVENT_PROGRAM_PROGRESS, ProgramProgressEvent),
      (EVENT_SELECTED_PROGRAM, SelectedProgramDefaultEvent),
      (EVENT_DISCONNECTED, DisconnectedEvent(false)),
      (EVENT_CONNECTED, ConnectedEvent(false)),
      (EVENT_DRYER_DRYING_TARGET, LabelEvent(CHANNEL_DRYER_DRYING_TARGET))]
  }

  /** The event handlers the dishwasher handler's constructor registers. */
  function DishwasherEvents(): (r: seq<(string, EventHandler)>)
    ensures forall i | 0 <= i < |r| :: Handles(r[i].0, r[i].1)
  {
    [
      (EVENT_DOOR_STATE, DoorStateEvent),
      (EVENT_OPERATION_STATE, OperationStateEvent),
      (EVENT_REMOTE_CONTROL_ACTIVE, BooleanEvent(CHANNEL_REMOTE_CONTROL_ACTIVE_STATE)),
      (EVENT_REMOTE_CONTROL_START_ALLOWED, BooleanEvent(CHANNEL_REMOTE_START_ALLOWANCE_STATE)),
      (EVENT_REMAINING_PROGRAM_TIME, RemainingTimeEvent),
      (EVENT_PROGRAM_PROGRESS, ProgramProgressEvent),
      (EVENT_SELECTED_PROGRAM, SelectedProgramDefaultEvent),
      (EVENT_ACTIVE_PROGRAM, ActiveProgramEvent(true)),
      (EVENT_POWER_STATE, DishwasherPowerEvent)]
  }

  /** The event handlers the coffee maker handler's constructor registers. */
  function CoffeeMakerEvents(): (r: seq<(string, EventHandler)>)
    ensures forall i | 0 <= i < |r| :: Handles(r[i].0, r[i].1)
  {
    [
      (EVENT_REMOTE_CONTROL_START_ALLOWED, BooleanEvent(CHANNEL_REMOTE_START_ALLOWANCE_STATE)),
      (EVENT_DOOR_STATE, DoorStateEvent),
      (EVENT_OPERATION_STATE, OperationStateEvent),
      (EVENT_REMOTE_CONTROL_ACTIVE, BooleanEvent(CHANNEL_REMOTE_CONTROL_ACTIVE_STATE)),
      (EVENT_ACTIVE_PROGRAM, ActiveProgramEvent(true)),
      (EVENT_PROGRAM_PROGRESS, ProgramProgressEvent),
      (EVENT_SELECTED_PROGRAM, SelectedProgramDefaultEvent),
      (EVENT_DISCONNECTED, DisconnectedEvent(false)),
      (EVENT_CONNECTED, ConnectedEvent(false))]
  }

  /** The event handlers the fridge/freezer handler's constructor registers. */
  function FridgeFreezerEvents(): (r: seq<(string, EventHandler)>)
    ensures forall i | 0 <= i < |r| :: Handles(r[i].0, r[i].1)
  {
    [
      (EVENT_DOOR_STATE, DoorStateEvent),
      (EVENT_FREEZER_SETPOINT_TEMPERATURE, TemperatureEvent(CHANNEL_FREEZER_SETPOINT_TEMPERATURE)),
      (EVENT_FRIDGE_SETPOINT_TEMPERATURE, TemperatureEvent(CHANNEL_REFRIDGERATOR_SETPOINT_TEMPERATURE)),
      (EVENT_FREEZER_SUPER_MODE, BooleanEvent(CHANNEL_FREEZER_SUPER_MODE)),
      (EVENT_FRIDGE_SUPER_MODE, BooleanEvent(CHANNEL_REFRIDGERATOR_SUPER_MODE))]
  }

  /** The channel an update handler is meant for: the one whose getter (or program option) it reads. */
  predicate Refreshes(channel: string, u: UpdateHandler) {
    match u
    case DoorUpdate => channel == CHANNEL_DOOR_STATE
    case PowerUpdate => channel == CHANNEL_POWER_STATE
    case OperationUpdate => channel == CHANNEL_OPERATION_STATE
    case RemoteControlActiveUpdate => channel == CHANNEL_REMOTE_CONTROL_ACTIVE_STATE
    case RemoteStartAllowanceUpdate => channel == CHANNEL_REMOTE_START_ALLOWANCE_STATE
    case SelectedProgramDefaultUpdate => channel == CHANNEL_SELECTED_PROGRAM_STATE
    case ProgramUpdate(active) =>
      channel == if active then CHANNEL_ACTIVE_PROGRAM_STATE else CHANNEL_SELECTED_PROGRAM_STATE
    case SelectedOptionUpdate(option, temperature) =>
      || (option == OPTION_SETPOINT_TEMPERATURE && temperature && channel == CHANNEL_SETPOINT_TEMPERATURE)
      || (option == OPTION_DURATION && !temperature && channel == CHANNEL_DURATION)
    case SetpointUpdate(freezer) =>
      channel == if freezer then CHANNEL_FREEZER_SETPOINT_TEMPERATURE else CHANNEL_REFRIDGERATOR_SETPOINT_TEMPERATURE
    case SuperModeUpdate(freezer) =>
      channel == if freezer then CHANNEL_FREEZER_SUPER_MODE else CHANNEL_REFRIDGERATOR_SUPER_MODE
  }

  /** registerChannelUpdateHandler calls, in the order each appliance's constructor makes them. */
  function UpdateRegistrations(kind: ApplianceKind): (r: seq<(string, UpdateHandler)>)
    ensures forall i | 0 <= i < |r| :: Refreshes(r[i].0, r[i].1)
  {
    match kind
    case Oven => [
      (CHANNEL_DOOR_STATE, DoorUpdate),
      (CHANNEL_POWER_STATE, PowerUpdate),
      (CHANNEL_OPERATION_STATE, OperationUpdate),
      (CHANNEL_REMOTE_CONTROL_ACTIVE_STATE, RemoteControlActiveUpdate),
      (CHANNEL_REMOTE_START_ALLOWANCE_STATE, RemoteStartAllowanceUpdate),
      (CHANNEL_SELECTED_PROGRAM_STATE, SelectedProgramDefaultUpdate),
      (CHANNEL_ACTIVE_PROGRAM_STATE, ProgramUpdate(true)),
      (CHANNEL_SETPOINT_TEMPERATURE, SelectedOptionUpdate(OPTION_SETPOINT_TEMPERATURE, true)),
      (CHANNEL_DURATION, SelectedOptionUpdate(OPTION_DURATION, false))]
    case Washer => [
      (CHANNEL_DOOR_STATE, DoorUpdate),
      (CHANNEL_OPERATION_STATE, OperationUpdate),
      (CHANNEL_REMOTE_CONTROL_ACTIVE_STATE, RemoteControlActiveUpdate),
      (CHANNEL_REMOTE_START_ALLOWANCE_STATE, RemoteStartAllowanceUpdate),
      (CHANNEL_ACTIVE_PROGRAM_STATE, ProgramUpdate(true)),
      (CHANNEL_SELECTED_PROGRAM_STATE, ProgramUpdate(false))]
    case Dryer => [
      (CHANNEL_DOOR_STATE, DoorUpdate),
      (CHANNEL_OPERATION_STATE, OperationUpdate),
      (CHANNEL_REMOTE_CONTROL_ACTIVE_STATE, RemoteControlActiveUpdate),
      (CHANNEL_REMOTE_START_ALLOWANCE_STATE, RemoteStartAllowanceUpdate),
      (CHANNEL_ACTIVE_PROGRAM_STATE, ProgramUpdate(true)),
      (CHANNEL_SELECTED_PROGRAM_STATE, ProgramUpdate(false))]
    case Dishwasher => [
      (CHANNEL_DOOR_STATE, DoorUpdate),
      (CHANNEL_POWER_STATE, PowerUpdate),
      (CHANNEL_OPERATION_STATE, OperationUpdate),
      (CHANNEL_REMOTE_CONTROL_ACTIVE_STATE, RemoteControlActiveUpdate),
      (CHANNEL_REMOTE_START_ALLOWANCE_STATE, RemoteStartAllowanceUpdate),
      (CHANNEL_ACTIVE_PROGRAM_STATE, ProgramUpdate(true))]
    case CoffeeMaker => [
      (CHANNEL_REMOTE_START_ALLOWANCE_STATE, RemoteStartAllowanceUpdate),
      (CHANNEL_DOOR_STATE, DoorUpdate),
      (CHANNEL_OPERATION_STATE, OperationUpdate),
      (CHANNEL_ACTIVE_PROGRAM_STATE, ProgramUpdate(true)),
      (CHANNEL_SELECTED_PROGRAM_STATE, ProgramUpdate(false))]
    case FridgeFreezer => [
      (CHANNEL_DOOR_STATE, DoorUpdate),
      (CHANNEL_FREEZER_SETPOINT_TEMPERATURE, SetpointUpdate(true)),
      (CHANNEL_REFRIDGERATOR_SETPOINT_TEMPERATURE, SetpointUpdate(false)),
      (CHANNEL_REFRIDGERATOR_SUPER_MODE, SuperModeUpdate(false)),
      (CHANNEL_FREEZER_SUPER_MODE, SuperModeUpdate(true))]
  }

  /** The handler map after the registrations, made one after another with HashMap.put. */
  function Table<H>(regs: seq<(string, H)>): map<string, H>
    decreases |regs|
  {
    if |regs| == 0 then map[]
    else Table(regs[..|regs| - 1])[regs[|regs| - 1].0 := regs[|regs| - 1].1]
  }

  /** A key is in the map iff some registration used it, and it maps to the last such registration's handler. */
  lemma {:induction false} TableLastWins<H>(regs: seq<(string, H)>, key: string)
    ensures key in Table(regs) <==> exists i :: 0 <= i < |regs| && regs[i].0 == key
    ensures key in Table(regs) ==>
      exists i :: 0 <= i < |regs| && regs[i].0 == key && Table(regs)[key] == regs[i].1 &&
                  (forall j :: i < j < |regs| ==> regs[j].0 != key)
    decreases |regs|
  {
    if |regs| > 0 {
      var front, last := regs[..|regs| - 1], regs[|regs| - 1];
      TableLastWins(front, key);
      assert Table(regs) == Table(front)[last.0 := last.1];
      assert forall k | 0 <= k < |front| :: regs[k] == front[k];
      if last.0 == key {
        assert regs[|regs| - 1].0 == key && Table(regs)[key] == regs[|regs| - 1].1;
      } else if key in Table(front) {
        var i :| 0 <= i < |front| && front[i].0 == key && Table(front)[key] == front[i].1 &&
                 (forall j :: i < j < |front| ==> front[j].0 != key);
        assert regs[i] == front[i] && Table(regs)[key] == regs[i].1;
        assert forall j :: i < j < |regs| ==> regs[j].0 != key;
      }
    }
  }

  /** The cases of the options switch in the program update handlers. */
  datatype OptionRule =
    | RemainingRule(quantity: bool)
    | ProgressRule(quantity: bool)
    | ElapsedRule
    | WasherTemperatureRule
    | WasherSpinSpeedRule
    | DryingTargetRule

  /** The case an option key selects in an appliance's active (or selected) program update handler, if any. */
  function RuleFor(kind: ApplianceKind, active: bool, key: string): (r: Option<OptionRule>)
    ensures r.Some? ==> SwitchesOnOptions(kind, active)
    ensures r.Some? && NumericRule(r.value) ==> active
  {
    match kind
    case Oven =>
      if !active then None
      else if key == OPTION_REMAINING_PROGRAM_TIME then Some(RemainingRule(true))
      else if key == OPTION_PROGRAM_PROGRESS then Some(ProgressRule(true))
      else if key == OPTION_ELAPSED_PROGRAM_TIME then Some(ElapsedRule)
      else None
    case Washer =>
      if active && key == OPTION_REMAINING_PROGRAM_TIME then Some(RemainingRule(false))
      else if active && key == OPTION_PROGRAM_PROGRESS then Some(ProgressRule(false))
      else if key == OPTION_WASHER_TEMPERATURE then Some(WasherTemperatureRule)
      else if key == OPTION_WASHER_SPIN_SPEED then Some(WasherSpinSpeedRule)
      else None
    case Dryer =>
      if active && key == OPTION_REMAINING_PROGRAM_TIME then Some(RemainingRule(true))
      else if active && key == OPTION_PROGRAM_PROGRESS then Some(ProgressRule(true))
      else if key == OPTION_DRYER_DRYING_TARGET then Some(DryingTargetRule)
      else None
    case Dishwasher =>
      if active && key == OPTION_REMAINING_PROGRAM_TIME then Some(RemainingRule(true))
      else if active && key == OPTION_PROGRAM_PROGRESS then Some(ProgressRule(true))
      else None
    case CoffeeMaker =>
      if active && key == OPTION_PROGRAM_PROGRESS then Some(ProgressRule(true)) else None
    case FridgeFreezer => None
  }

  /** The cases that read the option with getValueAsInt: times and progress. */
  predicate NumericRule(rule: OptionRule) {
    rule.RemainingRule? || rule.ProgressRule? || rule.ElapsedRule?
  }

  /** The channel a case writes. */
  function RuleChannel(rule: OptionRule): string {
    match rule
    case RemainingRule(_) => CHANNEL_REMAINING_PROGRAM_TIME_STATE
    case ProgressRule(_) => CHANNEL_PROGRAM_PROGRESS_STATE
    case ElapsedRule => CHANNEL_ELAPSED_PROGRAM_TIME
    case WasherTemperatureRule => CHANNEL_WASHER_TEMPERATURE
    case WasherSpinSpeedRule => CHANNEL_WASHER_SPIN_SPEED
    case DryingTargetRule => CHANNEL_DRYER_DRYING_TARGET
  }

  /** The numeric cases call getValueAsInt, the others pass the value to a mapper that dereferences it. */
  predicate RuleReadable(rule: OptionRule, o: ProgramOption) {
    match rule
    case RemainingRule(_) => IntValued(o.value)
    case ProgressRule(_) => IntValued(o.value)
    case ElapsedRule => IntValued(o.value)
    case _ => o.value.Some?
  }

  /** An option the switch can run on without an exception: switch needs a key, its case a readable value. */
  predicate OptionReadable(kind: ApplianceKind, active: bool, o: ProgramOption) {
    o.key.Some? && (RuleFor(kind, active, o.key.value).Some? ==> RuleReadable(RuleFor(kind, active, o.key.value).value, o))
  }

  predicate OptionsReadable(kind: ApplianceKind, active: bool, options: seq<ProgramOption>) {
    forall i | 0 <= i < |options| :: OptionReadable(kind, active, options[i])
  }

  /**
   * resetProgramStateChannels and the active program's switch agree: every channel a numeric
   * option of the active program writes is one the reset puts back to NULL.
   */
  lemma NumericTargetsAreReset(kind: ApplianceKind, key: string)
    requires RuleFor(kind, true, key).Some? && NumericRule(RuleFor(kind, true, key).value)
    ensures RuleChannel(RuleFor(kind, true, key).value) in ProgramChannels(kind)
  {
  }

  /** ... and every channel the reset puts back to NULL is written by some numeric option of the active program. */
  lemma ResetChannelsAreNumericTargets(kind: ApplianceKind, c: string)
    requires c in ProgramChannels(kind)
    ensures exists key :: RuleFor(kind, true, key).Some? && NumericRule(RuleFor(kind, true, key).value) &&
                          RuleChannel(RuleFor(kind, true, key).value) == c
  {
    var key := if c == CHANNEL_REMAINING_PROGRAM_TIME_STATE then OPTION_REMAINING_PROGRAM_TIME
               else if c == CHANNEL_PROGRAM_PROGRESS_STATE then OPTION_PROGRAM_PROGRESS
               else OPTION_ELAPSED_PROGRAM_TIME;
    assert RuleFor(kind, true, key).Some? && RuleChannel(RuleFor(kind, true, key).value) == c;
  }

  /** The state a case posts for an option. */
  function RuleState(rule: OptionRule, o: ProgramOption): State
    requires RuleReadable(rule, o)
  {
    match rule
    case RemainingRule(quantity) => RemainingTime(IntValue(o.value), quantity)
    case ProgressRule(quantity) => ProgramProgress(IntValue(o.value), quantity)
    case ElapsedRule => Quantity(IntValue(o.value), Seconds)
    case WasherTemperatureRule => Str(WasherTemperature(o.value.value))
    case WasherSpinSpeedRule => Str(WasherSpinSpeed(o.value.value))
    case DryingTargetRule => Str(Label(o.value.value))
  }

  /** One pass of the switch: the selected case writes its channel if the thing has it. */
  function ApplyOption(kind: ApplianceKind, active: bool, channels: seq<string>, states: States, o: ProgramOption): States
    requires OptionReadable(kind, active, o)
  {
    match RuleFor(kind, active, o.key.value)
    case None => states
    case Some(rule) => SetChannel(channels, states, RuleChannel(rule), RuleState(rule, o))
  }

  /** program.getOptions().forEach(switch ...), in payload order. */
  function ApplyOptions(kind: ApplianceKind, active: bool, channels: seq<string>, states: States, options: seq<ProgramOption>): States
    requires OptionsReadable(kind, active, options)
    decreases |options|
  {
    if |options| == 0 then states
    else ApplyOption(kind, active, channels, ApplyOptions(kind, active, channels, states, options[..|options| - 1]), options[|options| - 1])
  }

  /** The option selects a case that writes the given channel. */
  predicate Targets(kind: ApplianceKind, active: bool, o: ProgramOption, channel: string) {
    o.key.Some? && RuleFor(kind, active, o.key.value).Some? && RuleChannel(RuleFor(kind, active, o.key.value).value) == channel
  }

  /** The index of the last option that writes the channel, or -1 when none does. */
  function LastTarget(kind: ApplianceKind, active: bool, options: seq<ProgramOption>, channel: string): (r: int)
    ensures -1 <= r < |options|
    ensures r >= 0 ==> Targets(kind, active, options[r], channel)
    ensures forall j | r < j < |options| :: !Targets(kind, active, options[j], channel)
    decreases |options|
  {
    if |options| == 0 then -1
    else if Targets(kind, active, options[|options| - 1], channel) then |options| - 1
    else LastTarget(kind, active, options[..|options| - 1], channel)
  }

  /**
   * After the options loop a channel of the thing holds what the last option writing it
   * posted; a channel no option writes, or one the thing lacks, is as it was.
   */
  lemma {:induction false} ApplyOptionsEffect(kind: ApplianceKind, active: bool, channels: seq<string>, states: States,
                                            options: seq<ProgramOption>, channel: string)
    requires OptionsReadable(kind, active, options)
    ensures var r := ApplyOptions(kind, active, channels, states, options);
            var last := LastTarget(kind, active, options, channel);
            if last >= 0 && channel in channels then
              channel in r && r[channel] == RuleState(RuleFor(kind, active, options[last].key.value).value, options[last])
            else
              (channel in r <==> channel in states) && (channel in states ==> r[channel] == states[channel])
    decreases |options|
  {
    if |options| > 0 {
      var front := options[..|options| - 1];
      assert OptionsReadable(kind, active, front) by {
        forall i | 0 <= i < |front| ensures OptionReadable(kind, active, front[i]) {
          assert front[i] == options[i];
        }
      }
      ApplyOptionsEffect(kind, active, channels, states, front, channel);
      var o := options[|options| - 1];
      ApplyOptionAt(kind, active, channels, ApplyOptions(kind, active, channels, states, front), o, channel);
      if !Targets(kind, active, o, channel) {
        var last := LastTarget(kind, active, front, channel);
        assert LastTarget(kind, active, options, channel) == last;
        assert last >= 0 ==> options[last] == front[last];
      }
    }
  }

  /** One pass of the switch writes the channel iff the option targets it and the thing has it. */
  lemma ApplyOptionAt(kind: ApplianceKind, active: bool, channels: seq<string>, states: States,
                      o: ProgramOption, channel: string)
    requires OptionReadable(kind, active, o)
    ensures var r := ApplyOption(kind, active, channels, states, o);
            if Targets(kind, active, o, channel) && channel in channels then
              channel in r && r[channel] == RuleState(RuleFor(kind, active, o.key.value).value, o)
            else
              (channel in r <==> channel in states) && (channel in states ==> r[channel] == states[channel])
  {
  }

  /** stream().filter(o -> o.getKey().equals(key)).findFirst(): the first option with that key. */
  function FirstWithKey(options: seq<ProgramOption>, key: string): (r: Option<nat>)
    ensures r.Some? ==>
      r.value < |options| && options[r.value].key == Some(key) &&
      (forall j | 0 <= j < r.value :: options[j].key != Some(key))
    ensures r.None? ==> forall j | 0 <= j < |options| :: options[j].key != Some(key)
    decreases |options|
  {
    if |options| == 0 then None
    else if options[0].key == Some(key) then Some(0)
    else match FirstWithKey(options[1..], key)
      case None => None
      case Some(i) => Some(i + 1)
  }

  /** How far the stream runs: up to and including the first match, or through all options. */
  function ScanLength(options: seq<ProgramOption>, key: string): (n: nat)
    ensures n <= |options|
  {
    match FirstWithKey(options, key)
    case Some(i) => i + 1
    case None => |options|
  }

  /**
   * Whether a program update handler runs the option switch: every active-program handler and the
   * washer's and dryer's selected-program handlers do; the coffee maker's selected-program handler
   * posts only the label.
   */
  predicate SwitchesOnOptions(kind: ApplianceKind, active: bool) {
    active || kind == Washer || kind == Dryer
  }

  /** A program the update handlers read without an exception: the options the switch reaches are readable. */
  predicate ProgramReadable(kind: ApplianceKind, active: bool, fetch: Fetch<Option<Program>>) {
    fetch.Fetched? && fetch.value.Some? && fetch.value.value.key.Some? && SwitchesOnOptions(kind, active) ==>
      OptionsReadable(kind, active, fetch.value.value.options)
  }

  /** The oven's setpoint and duration handlers: every option the stream tests has a key, the match a number. */
  predicate SelectedOptionReadable(fetch: Fetch<Option<Program>>, key: string) {
    fetch.Fetched? && fetch.value.Some? && fetch.value.value.key.Some? ==>
      var options := fetch.value.value.options;
      (forall j | 0 <= j < ScanLength(options, key) :: options[j].key.Some?) &&
      (FirstWithKey(options, key).Some? ==> IntValued(options[FirstWithKey(options, key).value].value))
  }

  /** A setpoint the fridge handlers read with getValueAsInt. */
  predicate DataIntValued(fetch: Fetch<Option<Data>>) {
    fetch.Fetched? && fetch.value.Some? ==> IntValued(fetch.value.value.value)
  }

  /** What an update handler needs of the API's answers to run without a NumberFormatException or NullPointerException. */
  predicate UpdateReadable(kind: ApplianceKind, u: UpdateHandler, view: ApplianceView) {
    match u
    case ProgramUpdate(active) =>
      ProgramReadable(kind, active, if active then view.activeProgram else view.selectedProgram)
    case SelectedOptionUpdate(key, _) => SelectedOptionReadable(view.selectedProgram, key)
    case SetpointUpdate(freezer) => DataIntValued(if freezer then view.freezerSetpoint else view.fridgeSetpoint)
    case _ => true
  }

  /** A fetched Data value with a non-null value. */
  predicate HasValue(d: Option<Data>) {
    d.Some? && d.value.value.Some?
  }

  /** A program update handler once the program is fetched: its label and options, or NULL and a program reset. */
  function ProgramUpdateEffect(kind: ApplianceKind, channels: seq<string>, states: States, channel: string,
                               active: bool, p: Option<Program>): States
    requires p.Some? && p.value.key.Some? && SwitchesOnOptions(kind, active) ==> OptionsReadable(kind, active, p.value.options)
  {
    if p.Some? && p.value.key.Some? then
      var labelled := states[channel := Str(Label(p.value.key.value))];
      if SwitchesOnOptions(kind, active) then ApplyOptions(kind, active, channels, labelled, p.value.options)
      else labelled
    else
      ResetProgram(kind, channels, states[channel := NULL])
  }

  /** What running an update handler for a channel does to the states. */
  function RunUpdate(kind: ApplianceKind, channels: seq<string>, states: States, channel: string,
                     u: UpdateHandler, view: ApplianceView): States
    requires UpdateReadable(kind, u, view)
  {
    match u
    case DoorUpdate =>
      if view.doorState.FetchFailed? then states
      else states[channel := if HasValue(view.doorState.value) then DoorState(view.doorState.value.value.value) else NULL]
    case PowerUpdate =>
      if view.powerState.FetchFailed? then states
      else states[channel := if HasValue(view.powerState.value) then PowerState(view.powerState.value.value.value) else NULL]
    case OperationUpdate =>
      if view.operationState.FetchFailed? then states
      else states[channel := if HasValue(view.operationState.value) then LabelState(view.operationState.value.value.value) else NULL]
    case RemoteControlActiveUpdate =>
      if view.remoteControlActive.FetchFailed? then states
      else states[channel := Switch(IsRemoteFlag(view.remoteControlActive.value))]
    case RemoteStartAllowanceUpdate =>
      if view.remoteStartAllowed.FetchFailed? then states
      else states[channel := Switch(IsRemoteFlag(view.remoteStartAllowed.value))]
    case SelectedProgramDefaultUpdate => states
    case ProgramUpdate(active) =>
      var fetch := if active then view.activeProgram else view.selectedProgram;
      if fetch.FetchFailed? then states
      else ProgramUpdateEffect(kind, channels, states, channel, active, fetch.value)
    case SelectedOptionUpdate(key, temperature) =>
      var fetch := view.selectedProgram;
      if fetch.FetchFailed? || fetch.value.None? || fetch.value.value.key.None? then states
      else
        var options := fetch.value.value.options;
        (match FirstWithKey(options, key)
         case None => states[channel := NULL]
         case Some(i) =>
           states[channel := Quantity(IntValue(options[i].value), if temperature then Temperature(options[i].unit) else Seconds)])
    case SetpointUpdate(freezer) =>
      var fetch := if freezer then view.freezerSetpoint else view.fridgeSetpoint;
      if fetch.FetchFailed? then states
      else if HasValue(fetch.value) then
        states[channel := Quantity(IntValue(fetch.value.value.value), Temperature(fetch.value.value.unit))]
      else states[channel := NULL]
    case SuperModeUpdate(freezer) =>
      var fetch := if freezer then view.freezerSuperMode else view.fridgeSuperMode;
      if fetch.FetchFailed? then states
      else if HasValue(fetch.value) then states[channel := Switch(fetch.value.value.ValueAsBoolean())]
      else states[channel := NULL]
  }

  /** The options switch writes only channels the thing has. */
  lemma {:induction false} ApplyOptionsOutside(kind: ApplianceKind, active: bool, channels: seq<string>, states: States,
                                               options: seq<ProgramOption>, c: string)
    requires OptionsReadable(kind, active, options) && c !in channels
    ensures SameAt(ApplyOptions(kind, active, channels, states, options), states, c)
    decreases |options|
  {
    if |options| > 0 {
      ApplyOptionsOutside(kind, active, channels, states, options[..|options| - 1], c);
    }
  }

  /** A program update handler writes its own channel and otherwise only channels the thing has. */
  lemma ProgramUpdateOutside(kind: ApplianceKind, channels: seq<string>, states: States, channel: string,
                             active: bool, p: Option<Program>, c: string)
    requires p.Some? && p.value.key.Some? && SwitchesOnOptions(kind, active) ==> OptionsReadable(kind, active, p.value.options)
    requires c != channel && c !in channels
    ensures SameAt(ProgramUpdateEffect(kind, channels, states, channel, active, p), states, c)
  {
    if p.Some? && p.value.key.Some? {
      if SwitchesOnOptions(kind, active) {
        ApplyOptionsOutside(kind, active, channels, states[channel := Str(Label(p.value.key.value))], p.value.options, c);
      }
    } else {
      ResetProgramEffect(kind, channels, states[channel := NULL], c);
    }
  }

  /** Any update handler writes the channel it runs for and otherwise only channels the thing has. */
  lemma RunUpdateOutside(kind: ApplianceKind, channels: seq<string>, states: States, channel: string,
                         u: UpdateHandler, view: ApplianceView, c: string)
    requires UpdateReadable(kind, u, view)
    requires c != channel && c !in channels
    ensures SameAt(RunUpdate(kind, channels, states, channel, u, view), states, c)
  {
    if u.ProgramUpdate? {
      var fetch := if u.active then view.activeProgram else view.selectedProgram;
      if fetch.Fetched? {
        ProgramUpdateOutside(kind, channels, states, channel, u.active, fetch.value, c);
      }
    }
  }

  /** The parts of the thing handler that running a handler reads. */
  datatype Ctx = Ctx(kind: ApplianceKind, channels: seq<string>, bridge: Bridge, hasClient: bool,
                     updaters: map<string, UpdateHandler>)

  /** Every update handler that a refresh of the thing's channels can reach runs without an exception. */
  predicate UpdatesReadable(ctx: Ctx, view: ApplianceView) {
    forall c | c in ctx.channels && c in ctx.updaters :: UpdateReadable(ctx.kind, ctx.updaters[c], view)
  }

  /** updateChannel: refresh one channel through its update handler, if there is a client, an online bridge and a handler. */
  function UpdateChannel(ctx: Ctx, states: States, channel: string, view: ApplianceView): (r: States)
    requires channel in ctx.updaters ==> UpdateReadable(ctx.kind, ctx.updaters[channel], view)
    ensures !ctx.hasClient || !BridgeOnline(ctx.bridge) || channel !in ctx.updaters ==> r == states
  {
    if !ctx.hasClient || !BridgeOnline(ctx.bridge) || channel !in ctx.updaters then states
    else RunUpdate(ctx.kind, ctx.channels, states, channel, ctx.updaters[channel], view)
  }

  /** The for loop of updateChannels over a list of channels. */
  function UpdateEach(ctx: Ctx, states: States, cs: seq<string>, view: ApplianceView): States
    requires forall c | c in cs && c in ctx.updaters :: UpdateReadable(ctx.kind, ctx.updaters[c], view)
    decreases |cs|
  {
    if |cs| == 0 then states
    else UpdateChannel(ctx, UpdateEach(ctx, states, cs[..|cs| - 1], view), cs[|cs| - 1], view)
  }

  /** updateChannels: nothing without an online bridge, otherwise every channel of the thing in order. */
  function UpdateChannels(ctx: Ctx, states: States, view: ApplianceView): (r: States)
    requires UpdatesReadable(ctx, view)
    ensures !BridgeOnline(ctx.bridge) ==> r == states
  {
    if !BridgeOnline(ctx.bridge) then states else UpdateEach(ctx, states, ctx.channels, view)
  }

  /** Without a client, refreshing any list of channels changes nothing. */
  lemma {:induction false} UpdateEachWithoutClient(ctx: Ctx, states: States, cs: seq<string>, view: ApplianceView)
    requires !ctx.hasClient
    requires forall c | c in cs && c in ctx.updaters :: UpdateReadable(ctx.kind, ctx.updaters[c], view)
    ensures UpdateEach(ctx, states, cs, view) == states
    decreases |cs|
  {
    if |cs| > 0 {
      UpdateEachWithoutClient(ctx, states, cs[..|cs| - 1], view);
    }
  }

  /** Channels without a registered update handler are never touched by a refresh that writes only its own channel. */
  lemma {:induction false} UpdateEachUnregistered(ctx: Ctx, states: States, cs: seq<string>, view: ApplianceView)
    requires forall c | c in cs :: c !in ctx.updaters
    ensures UpdateEach(ctx, states, cs, view) == states
    decreases |cs|
  {
    if |cs| > 0 {
      UpdateEachUnregistered(ctx, states, cs[..|cs| - 1], view);
    }
  }

  /** Refreshing channels of the thing leaves every channel it lacks as it was. */
  lemma {:induction false} UpdateEachOutside(ctx: Ctx, states: States, cs: seq<string>, view: ApplianceView, c: string)
    requires forall x | x in cs && x in ctx.updaters :: UpdateReadable(ctx.kind, ctx.updaters[x], view)
    requires c !in cs && c !in ctx.channels
    ensures SameAt(UpdateEach(ctx, states, cs, view), states, c)
    decreases |cs|
  {
    if |cs| > 0 {
      var front := cs[..|cs| - 1];
      assert forall x | x in front :: x in cs;
      UpdateEachOutside(ctx, states, front, view, c);
      var last := cs[|cs| - 1];
      if ctx.hasClient && BridgeOnline(ctx.bridge) && last in ctx.updaters {
        RunUpdateOutside(ctx.kind, ctx.channels, UpdateEach(ctx, states, front, view), last, ctx.updaters[last], view, c);
      }
    }
  }

  /** The event handlers that read getValueAsInt. */
  predicate ReadsInt(h: EventHandler) {
    h.ElapsedTimeEvent? || h.RemainingTimeEvent? || h.ProgramProgressEvent? || h.TemperatureEvent? || h.DurationEvent?
  }

  /** What an event handler needs to run without an exception: a numeric value where it reads one, readable API answers where it refreshes. */
  predicate EventReadable(ctx: Ctx, h: EventHandler, e: Event, view: ApplianceView) {
    (ReadsInt(h) ==> IntValued(e.value)) &&
    (h.ConnectedEvent? || (h.OvenPowerEvent? && e.value == Some(STATE_POWER_ON)) ==> UpdatesReadable(ctx, view)) &&
    (h.ActiveProgramEvent? && h.refresh && CHANNEL_ACTIVE_PROGRAM_STATE in ctx.updaters ==>
      UpdateReadable(ctx.kind, ctx.updaters[CHANNEL_ACTIVE_PROGRAM_STATE], view))
  }

  /** The one channel a simple event handler writes; None for the handlers that do more (or nothing). */
  function SingleChannel(h: EventHandler): Option<string> {
    match h
    case ElapsedTimeEvent => Some(CHANNEL_ELAPSED_PROGRAM_TIME)
    case PowerStateEvent => Some(CHANNEL_POWER_STATE)
    case DoorStateEvent => Some(CHANNEL_DOOR_STATE)
    case OperationStateEvent => Some(CHANNEL_OPERATION_STATE)
    case BooleanEvent(c) => Some(c)
    case RemainingTimeEvent => Some(CHANNEL_REMAINING_PROGRAM_TIME_STATE)
    case ProgramProgressEvent => Some(CHANNEL_PROGRAM_PROGRESS_STATE)
    case TemperatureEvent(c) => Some(c)
    case DurationEvent(c) => Some(c)
    case WasherTemperatureEvent => Some(CHANNEL_WASHER_TEMPERATURE)
    case WasherSpinSpeedEvent => Some(CHANNEL_WASHER_SPIN_SPEED)
    case LabelEvent(c) => Some(c)
    case _ => None
  }

  /** The state a simple event handler posts on its channel. */
  function SingleState(h: EventHandler, e: Event): State
    requires SingleChannel(h).Some?
    requires ReadsInt(h) ==> IntValued(e.value)
  {
    match h
    case ElapsedTimeEvent => Num(IntValue(e.value))
    case PowerStateEvent => PowerState(e.value)
    case DoorStateEvent => DoorState(e.value)
    case OperationStateEvent => LabelState(e.value)
    case BooleanEvent(_) => Switch(BoolValue(e.value))
    case RemainingTimeEvent => RemainingTime(IntValue(e.value), false)
    case ProgramProgressEvent => ProgramProgress(IntValue(e.value), false)
    case TemperatureEvent(_) => Quantity(IntValue(e.value), Temperature(e.unit))
    case DurationEvent(_) => Quantity(IntValue(e.value), Seconds)
    case WasherTemperatureEvent => if e.value.None? then NULL else Str(WasherTemperature(e.value.value))
    case WasherSpinSpeedEvent => if e.value.None? then NULL else Str(WasherSpinSpeed(e.value.value))
    case LabelEvent(_) => LabelState(e.value)
  }

  /** The power handler of the dishwasher: when the appliance is not on, the program channels go back to NULL. */
  function DishwasherPower(ctx: Ctx, states: States, e: Event): States {
    var powered := SetChannel(ctx.channels, states, CHANNEL_POWER_STATE, PowerState(e.value));
    if e.value == Some(STATE_POWER_ON) then powered
    else
      var reset := ResetProgram(ctx.kind, ctx.channels, powered);
      var unselected := SetChannel(ctx.channels, reset, CHANNEL_SELECTED_PROGRAM_STATE, NULL);
      SetChannel(ctx.channels, unselected, CHANNEL_ACTIVE_PROGRAM_STATE, NULL)
  }

  /** The active-program handler: nothing without the channel, otherwise its label and then a reset or a refresh. */
  function ActiveProgramChanged(ctx: Ctx, states: States, refresh: bool, e: Event, view: ApplianceView): States
    requires refresh && CHANNEL_ACTIVE_PROGRAM_STATE in ctx.updaters ==>
      UpdateReadable(ctx.kind, ctx.updaters[CHANNEL_ACTIVE_PROGRAM_STATE], view)
  {
    if CHANNEL_ACTIVE_PROGRAM_STATE !in ctx.channels then states
    else
      var labelled := states[CHANNEL_ACTIVE_PROGRAM_STATE := LabelState(e.value)];
      if e.value.None? then ResetProgram(ctx.kind, ctx.channels, labelled)
      else if refresh then UpdateChannel(ctx, labelled, CHANNEL_ACTIVE_PROGRAM_STATE, view)
      else labelled
  }

  /** What running an event handler does to the states. */
  function RunEvent(ctx: Ctx, states: States, h: EventHandler, e: Event, view: ApplianceView): States
    requires EventReadable(ctx, h, e, view)
  {
    match h
    case SelectedProgramDefaultEvent => states
    case DisconnectedEvent(powerOff) =>
      var powered := if powerOff then SetChannel(ctx.channels, states, CHANNEL_POWER_STATE, OFF) else states;
      ResetAll(powered, ctx.channels)
    case ConnectedEvent(powerOn) =>
      var powered := if powerOn then SetChannel(ctx.channels, states, CHANNEL_POWER_STATE, ON) else states;
      UpdateChannels(ctx, ResetProgram(ctx.kind, ctx.channels, powered), view)
    case OvenPowerEvent =>
      var powered := SetChannel(ctx.channels, states, CHANNEL_POWER_STATE, PowerState(e.value));
      if e.value == Some(STATE_POWER_ON) then UpdateChannels(ctx, ResetProgram(ctx.kind, ctx.channels, powered), view)
      else ResetAll(powered, ctx.channels)
    case DishwasherPowerEvent => DishwasherPower(ctx, states, e)
    case ActiveProgramEvent(refresh) => ActiveProgramChanged(ctx, states, refresh, e, view)
    case _ => SetChannel(ctx.channels, states, SingleChannel(h).value, SingleState(h, e))
  }

  /**
   * An event never posts a state on a channel the thing lacks: every handler writes through
   * getThingChannel(...).ifPresent, resets the thing's own channels, or refreshes them.
   */
  lemma RunEventOutside(ctx: Ctx, states: States, h: EventHandler, e: Event, view: ApplianceView, c: string)
    requires EventReadable(ctx, h, e, view)
    requires c !in ctx.channels
    ensures SameAt(RunEvent(ctx, states, h, e, view), states, c)
  {
    if h.DisconnectedEvent? || h.DishwasherPowerEvent? {
      ResetEventsOutside(ctx, states, h, e, view, c);
    } else if h.ConnectedEvent? || h.OvenPowerEvent? {
      RefreshEventsOutside(ctx, states, h, e, view, c);
    } else {
      WritingEventsOutside(ctx, states, h, e, view, c);
    }
  }

  /** The handlers that reset channels on a disconnection or a dishwasher power change. */
  lemma ResetEventsOutside(ctx: Ctx, states: States, h: EventHandler, e: Event, view: ApplianceView, c: string)
    requires EventReadable(ctx, h, e, view)
    requires c !in ctx.channels && (h.DisconnectedEvent? || h.DishwasherPowerEvent?)
    ensures SameAt(RunEvent(ctx, states, h, e, view), states, c)
  {
    if h.DisconnectedEvent? {
      ResetAllEffect(if h.powerOff then SetChannel(ctx.channels, states, CHANNEL_POWER_STATE, OFF) else states, ctx.channels);
    } else {
      ResetProgramEffect(ctx.kind, ctx.channels, SetChannel(ctx.channels, states, CHANNEL_POWER_STATE, PowerState(e.value)), c);
    }
  }

  /** The handlers that refresh the thing on a connection or on power-on. */
  lemma RefreshEventsOutside(ctx: Ctx, states: States, h: EventHandler, e: Event, view: ApplianceView, c: string)
    requires EventReadable(ctx, h, e, view)
    requires c !in ctx.channels && (h.ConnectedEvent? || h.OvenPowerEvent?)
    ensures SameAt(RunEvent(ctx, states, h, e, view), states, c)
  {
    if h.ConnectedEvent? {
      RefreshOutside(ctx, if h.powerOn then SetChannel(ctx.channels, states, CHANNEL_POWER_STATE, ON) else states, view, c);
    } else {
      var powered := SetChannel(ctx.channels, states, CHANNEL_POWER_STATE, PowerState(e.value));
      if e.value == Some(STATE_POWER_ON) {
        RefreshOutside(ctx, powered, view, c);
      } else {
        ResetAllEffect(powered, ctx.channels);
      }
    }
  }

  /** The handlers that write one channel, or the active program's label and what follows it. */
  lemma WritingEventsOutside(ctx: Ctx, states: States, h: EventHandler, e: Event, view: ApplianceView, c: string)
    requires EventReadable(ctx, h, e, view)
    requires c !in ctx.channels
    requires !(h.DisconnectedEvent? || h.DishwasherPowerEvent? || h.ConnectedEvent? || h.OvenPowerEvent?)
    ensures SameAt(RunEvent(ctx, states, h, e, view), states, c)
  {
    if h.ActiveProgramEvent? {
      ActiveProgramOutside(ctx, states, h.refresh, e, view, c);
    }
  }

  /** The reset and refresh after a connection or power-on leave channels the thing lacks alone. */
  lemma RefreshOutside(ctx: Ctx, states: States, view: ApplianceView, c: string)
    requires UpdatesReadable(ctx, view) && c !in ctx.channels
    ensures SameAt(UpdateChannels(ctx, ResetProgram(ctx.kind, ctx.channels, states), view), states, c)
  {
    ResetProgramEffect(ctx.kind, ctx.channels, states, c);
    if BridgeOnline(ctx.bridge) {
      UpdateEachOutside(ctx, ResetProgram(ctx.kind, ctx.channels, states), ctx.channels, view, c);
    }
  }

  /** The active-program handler leaves channels the thing lacks alone. */
  lemma ActiveProgramOutside(ctx: Ctx, states: States, refresh: bool, e: Event, view: ApplianceView, c: string)
    requires refresh && CHANNEL_ACTIVE_PROGRAM_STATE in ctx.updaters ==>
      UpdateReadable(ctx.kind, ctx.updaters[CHANNEL_ACTIVE_PROGRAM_STATE], view)
    requires c !in ctx.channels
    ensures SameAt(ActiveProgramChanged(ctx, states, refresh, e, view), states, c)
  {
    if CHANNEL_ACTIVE_PROGRAM_STATE in ctx.channels {
      var labelled := states[CHANNEL_ACTIVE_PROGRAM_STATE := LabelState(e.value)];
      if e.value.None? {
        ResetProgramEffect(ctx.kind, ctx.channels, labelled, c);
      } else if refresh && ctx.hasClient && BridgeOnline(ctx.bridge) && CHANNEL_ACTIVE_PROGRAM_STATE in ctx.updaters {
        RunUpdateOutside(ctx.kind, ctx.channels, labelled, CHANNEL_ACTIVE_PROGRAM_STATE,
                         ctx.updaters[CHANNEL_ACTIVE_PROGRAM_STATE], view, c);
      }
    }
  }

  /** A simple event handler changes its own channel, if the thing has it, and nothing else. */
  lemma SingleChannelEvents(ctx: Ctx, states: States, h: EventHandler, e: Event, view: ApplianceView, c: string)
    requires SingleChannel(h).Some? && EventReadable(ctx, h, e, view)
    ensures c != SingleChannel(h).value ==> (c in RunEvent(ctx, states, h, e, view) <==> c in states)
    ensures c != SingleChannel(h).value && c in states ==> RunEvent(ctx, states, h, e, view)[c] == states[c]
    ensures c == SingleChannel(h).value && c in ctx.channels ==> RunEvent(ctx, states, h, e, view)[c] == SingleState(h, e)
  {
  }

  /** Losing the connection (or an oven switched off): power OFF on the oven, NULL on every other channel, the rest kept. */
  lemma SwitchedOffEffect(ctx: Ctx, states: States, h: EventHandler, e: Event, view: ApplianceView, c: string)
    requires h.DisconnectedEvent? || (h.OvenPowerEvent? && e.value != Some(STATE_POWER_ON))
    requires EventReadable(ctx, h, e, view)
    ensures var r := RunEvent(ctx, states, h, e, view);
      (c in ctx.channels && c != CHANNEL_POWER_STATE ==> c in r && r[c] == NULL) &&
      (c == CHANNEL_POWER_STATE && c in ctx.channels && !(h.DisconnectedEvent? && !h.powerOff) ==> c in r && r[c] == OFF) &&
      (c !in ctx.channels ==> (c in r <==> c in states) && (c in states ==> r[c] == states[c]))
  {
    var powered := if h.OvenPowerEvent? || h.powerOff then SetChannel(ctx.channels, states, CHANNEL_POWER_STATE, OFF) else states;
    assert RunEvent(ctx, states, h, e, view) == ResetAll(powered, ctx.channels);
    ResetAllEffect(powered, ctx.channels);
  }

  /** The dishwasher switched on changes only the power channel. */
  lemma DishwasherPowerOn(ctx: Ctx, states: States, e: Event, c: string)
    requires e.value == Some(STATE_POWER_ON)
    ensures var r := DishwasherPower(ctx, states, e);
      (CHANNEL_POWER_STATE in ctx.channels ==> r == states[CHANNEL_POWER_STATE := ON]) &&
      (CHANNEL_POWER_STATE !in ctx.channels ==> r == states)
  {
  }

  /** The dishwasher switched off: power OFF, program, selected and active channels NULL, every other channel kept. */
  lemma DishwasherPowerOff(ctx: Ctx, states: States, e: Event, c: string)
    requires ctx.kind == Dishwasher && e.value != Some(STATE_POWER_ON)
    ensures var r := DishwasherPower(ctx, states, e);
      var cleared := [CHANNEL_REMAINING_PROGRAM_TIME_STATE, CHANNEL_PROGRAM_PROGRESS_STATE,
                      CHANNEL_SELECTED_PROGRAM_STATE, CHANNEL_ACTIVE_PROGRAM_STATE];
      (c == CHANNEL_POWER_STATE && c in ctx.channels ==> c in r && r[c] == OFF) &&
      (c in cleared && c in ctx.channels ==> c in r && r[c] == NULL) &&
      (!(c in ctx.channels && (c == CHANNEL_POWER_STATE || c in cleared)) ==>
        (c in r <==> c in states) && (c in states ==> r[c] == states[c]))
  {
    var powered := SetChannel(ctx.channels, states, CHANNEL_POWER_STATE, OFF);
    ResetProgramEffect(Dishwasher, ctx.channels, powered, c);
  }

  /** A program that ended (no value): its label channel NULL, the program channels NULL, nothing else changed. */
  lemma ProgramEndedEffect(ctx: Ctx, states: States, refresh: bool, e: Event, view: ApplianceView, c: string)
    requires e.value.None? && CHANNEL_ACTIVE_PROGRAM_STATE in ctx.channels
    requires refresh && CHANNEL_ACTIVE_PROGRAM_STATE in ctx.updaters ==>
      UpdateReadable(ctx.kind, ctx.updaters[CHANNEL_ACTIVE_PROGRAM_STATE], view)
    ensures var r := ActiveProgramChanged(ctx, states, refresh, e, view);
      (c == CHANNEL_ACTIVE_PROGRAM_STATE ==> c in r && r[c] == NULL) &&
      (c in ProgramChannels(ctx.kind) && c in ctx.channels ==> c in r && r[c] == NULL) &&
      (c != CHANNEL_ACTIVE_PROGRAM_STATE && !(c in ProgramChannels(ctx.kind) && c in ctx.channels) ==>
        (c in r <==> c in states) && (c in states ==> r[c] == states[c]))
  {
    var labelled := states[CHANNEL_ACTIVE_PROGRAM_STATE := NULL];
    ResetProgramEffect(ctx.kind, ctx.channels, labelled, c);
    assert CHANNEL_ACTIVE_PROGRAM_STATE !in ProgramChannels(ctx.kind);
  }

  /** An update handler that finds no program posts NULL on its channel and resets the program channels. */
  lemma NoProgramEffect(kind: ApplianceKind, channels: seq<string>, states: States, channel: string, active: bool,
                        p: Option<Program>, c: string)
    requires p.None? || p.value.key.None?
    requires channel !in ProgramChannels(kind)
    ensures var r := ProgramUpdateEffect(kind, channels, states, channel, active, p);
      (c == channel ==> c in r && r[c] == NULL) &&
      (c in ProgramChannels(kind) && c in channels ==> c in r && r[c] == NULL) &&
      (c != channel && !(c in ProgramChannels(kind) && c in channels) ==>
        (c in r <==> c in states) && (c in states ==> r[c] == states[c]))
  {
    ResetProgramEffect(kind, channels, states[channel := NULL], c);
  }

  lemma ProgramFoundIsOptions(kind: ApplianceKind, channels: seq<string>, states: States, channel: string, active: bool,
                              p: Program)
    requires p.key.Some? && SwitchesOnOptions(kind, active) && OptionsReadable(kind, active, p.options)
    ensures ProgramUpdateEffect(kind, channels, states, channel, active, Some(p)) ==
            ApplyOptions(kind, active, channels, states[channel := Str(Label(p.key.value))], p.options)
  {
  }

  /**
   * An update handler that finds a program posts its label, then per channel what the last option
   * for it says; a handler without the switch has no option writing any channel.
   */
  lemma ProgramFoundEffect(kind: ApplianceKind, channels: seq<string>, states: States, channel: string, active: bool,
                           p: Program, c: string)
    requires p.key.Some? && (SwitchesOnOptions(kind, active) ==> OptionsReadable(kind, active, p.options))
    ensures var r := ProgramUpdateEffect(kind, channels, states, channel, active, Some(p));
      var last := LastTarget(kind, active, p.options, c);
      (last >= 0 && c in channels ==>
        c in r && r[c] == RuleState(RuleFor(kind, active, p.options[last].key.value).value, p.options[last])) &&
      (c == channel && !(last >= 0 && c in channels) ==> c in r && r[c] == Str(Label(p.key.value))) &&
      (c != channel && !(last >= 0 && c in channels) ==> (c in r <==> c in states) && (c in states ==> r[c] == states[c]))
  {
    var labelled := states[channel := Str(Label(p.key.value))];
    var last := LastTarget(kind, active, p.options, c);
    if !SwitchesOnOptions(kind, active) {
      if last >= 0 {
        assert false;
      }
      return;
    }
    var r := ApplyOptions(kind, active, channels, labelled, p.options);
    ProgramFoundIsOptions(kind, channels, states, channel, active, p);
    ApplyOptionsEffect(kind, active, channels, labelled, p.options, c);
    if !(last >= 0 && c in channels) {
      assert (c in r <==> c in labelled) && (c in labelled ==> r[c] == labelled[c]);
      if c == channel {
        assert c in labelled && labelled[c] == Str(Label(p.key.value));
      } else {
        assert (c in labelled <==> c in states) && (c in states ==> labelled[c] == states[c]);
      }
    }
  }
}
