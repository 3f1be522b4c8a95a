/**
 * The binding's string constants: configuration key, thing types, channel ids, event keys,
 * option keys and API state values.
 *
 * Values that the binding-constants file states are copied exactly. The handlers and the
 * discovery service also use THING_TYPE_*, EVENT_*, CHANNEL_* and OPTION_* constants that this
 * file does not define; each of those is given its own name as its value. The binding only
 * compares keys for equality (thing type ids ignoring case), so all that matters about those
 * values is that they are pairwise distinct, even ignoring case, which the names guarantee.
 */
module Constants {
  const BINDING_ID := "homeconnect"
  const HA_ID := "haId"
  const THING_TYPE_API_BRIDGE := "api_bridge"
  const THING_TYPE_DISHWASHER := "dishwasher"
  const THING_TYPE_OVEN := "THING_TYPE_OVEN"
  const THING_TYPE_WASHER := "THING_TYPE_WASHER"
  const THING_TYPE_DRYER := "THING_TYPE_DRYER"
  const THING_TYPE_COFFEE_MAKER := "THING_TYPE_COFFEE_MAKER"
  const THING_TYPE_FRIDGE_FREEZER := "THING_TYPE_FRIDGE_FREEZER"

  // API state values
  const STATE_POWER_OFF := "BSH.Common.EnumType.PowerState.Off"
  const STATE_POWER_ON := "BSH.Common.EnumType.PowerState.On"
  const STATE_POWER_STANDBY := "BSH.Common.EnumType.PowerState.Standby"
  const STATE_DOOR_OPEN := "BSH.Common.EnumType.DoorState.Open"
  const STATE_DOOR_LOCKED := "BSH.Common.EnumType.DoorState.Locked"
  const STATE_DOOR_CLOSED := "BSH.Common.EnumType.DoorState.Closed"

  // API state keys, which the dishwasher handler of the first generation receives as event keys
  const STATE_POWER := "BSH.Common.Setting.PowerState"
  const STATE_DOOR := "BSH.Common.Status.DoorState"
  const STATE_OPERATION := "BSH.Common.Status.OperationState"
  const STATE_REMOTE_START := "BSH.Common.Status.RemoteControlStartAllowed"
  const STATE_REMOTE_CONTROL := "BSH.Common.Status.RemoteControlActive"
  const STATE_ACTIVE_PROGRAM := "BSH.Common.Root.ActiveProgram"

  // program option keys
  const OPTION_REMAINING_PROGRAM_TIME := "BSH.Common.Option.RemainingProgramTime"
  const OPTION_PROGRAM_PROGRESS := "BSH.Common.Option.ProgramProgress"
  const OPTION_ELAPSED_PROGRAM_TIME := "OPTION_ELAPSED_PROGRAM_TIME"
  const OPTION_WASHER_TEMPERATURE := "OPTION_WASHER_TEMPERATURE"
  const OPTION_WASHER_SPIN_SPEED := "OPTION_WASHER_SPIN_SPEED"
  const OPTION_DRYER_DRYING_TARGET := "OPTION_DRYER_DRYING_TARGET"
  const OPTION_SETPOINT_TEMPERATURE := "OPTION_SETPOINT_TEMPERATURE"
  const OPTION_DURATION := "OPTION_DURATION"

  // channel ids of the first-generation dishwasher thing
  const CHANNEL_DISHWASHER_POWER_STATE := "dishwasher_power_state"
  const CHANNEL_DISHWASHER_DOOR_STATE := "dishwasher_door_state"
  const CHANNEL_DISHWASHER_OPERATION_STATE := "dishwasher_operation_state"
  const CHANNEL_DISHWASHER_REMOTE_START_ALLOWANCE_STATE := "dishwasher_remote_start_allowance_state"
  const CHANNEL_DISHWASHER_REMOTE_CONTROL_ACTIVE_STATE := "dishwasher_remote_control_active_state"
  const CHANNEL_DISHWASHER_ACTIVE_PROGRAM_STATE := "dishwasher_active_program_state"
  const CHANNEL_DISHWASHER_REMAINING_PROGRAM_TIME_STATE := "dishwasher_remaining_program_time_state"
  const CHANNEL_DISHWASHER_PROGRAM_PROGRESS_STATE := "dishwasher_program_progress_state"

  // channel ids of the appliance things
  const CHANNEL_POWER_STATE := "CHANNEL_POWER_STATE"
  const CHANNEL_DOOR_STATE := "CHANNEL_DOOR_STATE"
  const CHANNEL_OPERATION_STATE := "CHANNEL_OPERATION_STATE"
  const CHANNEL_REMOTE_CONTROL_ACTIVE_STATE := "CHANNEL_REMOTE_CONTROL_ACTIVE_STATE"
  const CHANNEL_REMOTE_START_ALLOWANCE_STATE := "CHANNEL_REMOTE_START_ALLOWANCE_STATE"
  const CHANNEL_ACTIVE_PROGRAM_STATE := "CHANNEL_ACTIVE_PROGRAM_STATE"
  const CHANNEL_SELECTED_PROGRAM_STATE := "CHANNEL_SELECTED_PROGRAM_STATE"
  const CHANNEL_REMAINING_PROGRAM_TIME_STATE := "CHANNEL_REMAINING_PROGRAM_TIME_STATE"
  const CHANNEL_PROGRAM_PROGRESS_STATE := "CHANNEL_PROGRAM_PROGRESS_STATE"
  const CHANNEL_ELAPSED_PROGRAM_TIME := "CHANNEL_ELAPSED_PROGRAM_TIME"
  const CHANNEL_OVEN_CURRENT_CAVITY_TEMPERATURE := "CHANNEL_OVEN_CURRENT_CAVITY_TEMPERATURE"
  const CHANNEL_SETPOINT_TEMPERATURE := "CHANNEL_SETPOINT_TEMPERATURE"
  const CHANNEL_DURATION := "CHANNEL_DURATION"
  const CHANNEL_WASHER_TEMPERATURE := "CHANNEL_WASHER_TEMPERATURE"
  const CHANNEL_WASHER_SPIN_SPEED := "CHANNEL_WASHER_SPIN_SPEED"
  const CHANNEL_DRYER_DRYING_TARGET := "CHANNEL_DRYER_DRYING_TARGET"
  const CHANNEL_FREEZER_SETPOINT_TEMPERATURE := "CHANNEL_FREEZER_SETPOINT_TEMPERATURE"
  const CHANNEL_REFRIDGERATOR_SETPOINT_TEMPERATURE := "CHANNEL_REFRIDGERATOR_SETPOINT_TEMPERATURE"
  const CHANNEL_FREEZER_SUPER_MODE := "CHANNEL_FREEZER_SUPER_MODE"
  const CHANNEL_REFRIDGERATOR_SUPER_MODE := "CHANNEL_REFRIDGERATOR_SUPER_MODE"

  // event keys of the appliance things
  const EVENT_ELAPSED_PROGRAM_TIME := "EVENT_ELAPSED_PROGRAM_TIME"
  const EVENT_DOOR_STATE := "EVENT_DOOR_STATE"
  const EVENT_OPERATION_STATE := "EVENT_OPERATION_STATE"
  const EVENT_REMOTE_CONTROL_ACTIVE := "EVENT_REMOTE_CONTROL_ACTIVE"
  const EVENT_REMOTE_CONTROL_START_ALLOWED := "EVENT_REMOTE_CONTROL_START_ALLOWED"
  const EVENT_REMAINING_PROGRAM_TIME := "EVENT_REMAINING_PROGRAM_TIME"
  const EVENT_PROGRAM_PROGRESS := "EVENT_PROGRAM_PROGRESS"
  const EVENT_SELECTED_PROGRAM := "EVENT_SELECTED_PROGRAM"
  const EVENT_ACTIVE_PROGRAM := "EVENT_ACTIVE_PROGRAM"
  const EVENT_POWER_STATE := "EVENT_POWER_STATE"
  const EVENT_CONNECTED := "EVENT_CONNECTED"
  const EVENT_DISCONNECTED := "EVENT_DISCONNECTED"
  const EVENT_OVEN_CAVITY_TEMPERATURE := "EVENT_OVEN_CAVITY_TEMPERATURE"
  const EVENT_SETPOINT_TEMPERATURE := "EVENT_SETPOINT_TEMPERATURE"
  const EVENT_DURATION := "EVENT_DURATION"
  const EVENT_WASHER_TEMPERATURE := "EVENT_WASHER_TEMPERATURE"
  const EVENT_WASHER_SPIN_SPEED := "EVENT_WASHER_SPIN_SPEED"
  const EVENT_DRYER_DRYING_TARGET := "EVENT_DRYER_DRYING_TARGET"
  const EVENT_FREEZER_SETPOINT_TEMPERATURE := "EVENT_FREEZER_SETPOINT_TEMPERATURE"
  const EVENT_FRIDGE_SETPOINT_TEMPERATURE := "EVENT_FRIDGE_SETPOINT_TEMPERATURE"
  const EVENT_FREEZER_SUPER_MODE := "EVENT_FREEZER_SUPER_MODE"
  const EVENT_FRIDGE_SUPER_MODE := "EVENT_FRIDGE_SUPER_MODE"
}
