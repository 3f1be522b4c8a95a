/**
 * Channel states of a Home Connect thing and the channel-level rules the thing handlers share:
 * looking up a channel of the thing, writing it, putting groups of channels back to NULL, and
 * the value rules of the default event handlers.
 */
module Channels {
  import opened Wrappers
  import opened Constants
  import opened Labels

  /** The unit of a quantity; a temperature keeps the unit text the API sent with the value. */
  datatype Unit = Seconds | Percent | Temperature(symbol: Option<string>)

  /** The openHAB states the handlers post. */
  datatype State =
    | NULL
    | ON
    | OFF
    | OPEN
    | CLOSED
    | Str(text: string)
    | Num(n: int)
    | Quantity(amount: int, unit: Unit)
    | Decimal(text: string)

  /** Channel id to the state last posted on it. */
  type States = map<string, State>

  /** The entry for channel c is the same in both state maps: present in both with one state, or in neither. */
  predicate SameAt(a: States, b: States, c: string) {
    (c in a <==> c in b) && (c in a ==> a[c] == b[c])
  }

  /** The appliance a thing handler drives. */
  datatype ApplianceKind = Oven | Washer | Dryer | Dishwasher | CoffeeMaker | FridgeFreezer

  /** getThingChannel, corrected: the thing's channel with that id, or nothing when it has none. */
  function ThingChannel(channels: seq<string>, id: string): (r: Option<string>)
    ensures r.Some? <==> id in channels
    ensures r.Some? ==> r.value == id
  {
    if id in channels then Some(id) else None
  }

  /** What getThingChannel does as written: a found channel, or a NullPointerException. */
  datatype Lookup = Found(channel: string) | NullPointer

  /** getThingChannel as written wraps the thing's answer with Optional.of, which refuses null. */
  function ThingChannelAsWritten(channels: seq<string>, id: string): (r: Lookup)
    ensures r.Found? <==> id in channels
  {
    if id in channels then Found(id) else NullPointer
  }

  /**
   * The two agree on every channel the thing has; on one it lacks, the written code throws
   * where every caller, by testing ifPresent, expects an empty result.
   */
  lemma ThingChannelDiscrepancy(channels: seq<string>, id: string)
    ensures id in channels ==> ThingChannelAsWritten(channels, id) == Found(ThingChannel(channels, id).value)
    ensures id !in channels ==> ThingChannelAsWritten(channels, id).NullPointer? && ThingChannel(channels, id).None?
  {
  }

  /** A thing without an elapsed-time channel: the written lookup throws for it. */
  lemma ElapsedChannelMissing()
    ensures ThingChannelAsWritten([CHANNEL_DOOR_STATE], CHANNEL_ELAPSED_PROGRAM_TIME) == NullPointer
  {
    assert CHANNEL_ELAPSED_PROGRAM_TIME != CHANNEL_DOOR_STATE;
  }

  /** getThingChannel(id).ifPresent(c -> updateState(c, v)): only a channel the thing has is written. */
  function SetChannel(channels: seq<string>, states: States, id: string, v: State): (r: States)
    ensures id in channels ==> r == states[id := v]
    ensures id !in channels ==> r == states
  {
    match ThingChannel(channels, id)
    case Some(c) => states[c := v]
    case None => states
  }

  /** Posting NULL on each listed channel the thing has, in order. */
  function NullChannels(channels: seq<string>, states: States, ids: seq<string>): States
    decreases |ids|
  {
    if |ids| == 0 then states
    else SetChannel(channels, NullChannels(channels, states, ids[..|ids| - 1]), ids[|ids| - 1], NULL)
  }

  /** Exactly the listed channels the thing has become NULL; every other entry is kept. */
  lemma {:induction false} NullChannelsEffect(channels: seq<string>, states: States, ids: seq<string>)
    ensures forall c :: c in NullChannels(channels, states, ids) <==> c in states || (c in ids && c in channels)
    ensures forall c :: c in ids && c in channels ==> NullChannels(channels, states, ids)[c] == NULL
    ensures forall c :: c in states && !(c in ids && c in channels) ==> NullChannels(channels, states, ids)[c] == states[c]
    decreases |ids|
  {
    if |ids| > 0 {
      var front := ids[..|ids| - 1];
      NullChannelsEffect(channels, states, front);
      assert forall c :: c in ids <==> c in front || c == ids[|ids| - 1];
    }
  }

  /** The channels resetProgramStateChannels puts back to NULL, per appliance. */
  function ProgramChannels(kind: ApplianceKind): seq<string> {
    match kind
    case Oven => [CHANNEL_REMAINING_PROGRAM_TIME_STATE, CHANNEL_PROGRAM_PROGRESS_STATE, CHANNEL_ELAPSED_PROGRAM_TIME]
    case Washer => [CHANNEL_REMAINING_PROGRAM_TIME_STATE, CHANNEL_PROGRAM_PROGRESS_STATE]
    case Dryer => [CHANNEL_REMAINING_PROGRAM_TIME_STATE, CHANNEL_PROGRAM_PROGRESS_STATE]
    case Dishwasher => [CHANNEL_REMAINING_PROGRAM_TIME_STATE, CHANNEL_PROGRAM_PROGRESS_STATE]
    case CoffeeMaker => [CHANNEL_PROGRAM_PROGRESS_STATE]
    case FridgeFreezer => []
  }

  /** resetProgramStateChannels. */
  function ResetProgram(kind: ApplianceKind, channels: seq<string>, states: States): States {
    NullChannels(channels, states, ProgramChannels(kind))
  }

  /** Resetting the program channels touches those of the thing's channels and nothing else. */
  lemma ResetProgramEffect(kind: ApplianceKind, channels: seq<string>, states: States, c: string)
    ensures c in ProgramChannels(kind) && c in channels ==>
      c in ResetProgram(kind, channels, states) && ResetProgram(kind, channels, states)[c] == NULL
    ensures !(c in ProgramChannels(kind) && c in channels) ==>
      (c in ResetProgram(kind, channels, states) <==> c in states) &&
      (c in states ==> ResetProgram(kind, channels, states)[c] == states[c])
  {
    NullChannelsEffect(channels, states, ProgramChannels(kind));
  }

  /** resetAllChannels: NULL on every channel of the thing, in order, except the power channel. */
  function ResetAll(states: States, channels: seq<string>): States
    decreases |channels|
  {
    if |channels| == 0 then states
    else
      var before := ResetAll(states, channels[..|channels| - 1]);
      var c := channels[|channels| - 1];
      if c == CHANNEL_POWER_STATE then before else before[c := NULL]
  }

  /** After resetAllChannels every channel but power is NULL, and nothing else changed. */
  lemma {:induction false} ResetAllEffect(states: States, channels: seq<string>)
    ensures forall c :: c in ResetAll(states, channels) <==> c in states || (c in channels && c != CHANNEL_POWER_STATE)
    ensures forall c :: c in channels && c != CHANNEL_POWER_STATE ==> ResetAll(states, channels)[c] == NULL
    ensures forall c :: c in states && (c !in channels || c == CHANNEL_POWER_STATE) ==> ResetAll(states, channels)[c] == states[c]
    decreases |channels|
  {
    if |channels| > 0 {
      var front := channels[..|channels| - 1];
      ResetAllEffect(states, front);
      assert forall c :: c in channels <==> c in front || c == channels[|channels| - 1];
    }
  }

  /** ON or OFF for a flag. */
  function Switch(b: bool): (s: State)
    ensures s == ON <==> b
    ensures s == ON || s == OFF
  {
    if b then ON else OFF
  }

  /** The door rule: OPEN exactly for the API's open value, CLOSED for every other one (locked included). */
  function DoorState(value: Option<string>): (s: State)
    ensures s == OPEN <==> value == Some(STATE_DOOR_OPEN)
    ensures s == OPEN || s == CLOSED
  {
    if value == Some(STATE_DOOR_OPEN) then OPEN else CLOSED
  }

  /** The power rule: ON exactly for the API's on value; standby and off both read OFF. */
  function PowerState(value: Option<string>): (s: State)
    ensures s == ON <==> value == Some(STATE_POWER_ON)
    ensures s == ON || s == OFF
  {
    Switch(value == Some(STATE_POWER_ON))
  }

  /** The rule for the operation state, the active program and the drying target: NULL for no value, otherwise its label. */
  function LabelState(value: Option<string>): (s: State)
    ensures s == NULL <==> value.None?
    ensures value.Some? ==> s.Str? && s.text == Label(value.value)
  {
    if value.None? then NULL else Str(Label(value.value))
  }

  /** The remaining-time rule: 0 seconds left reads as NULL and only 0 does. */
  function RemainingTime(n: int, quantity: bool): (s: State)
    ensures s == NULL <==> n == 0
    ensures s != NULL && quantity ==> s == Quantity(n, Seconds)
    ensures s != NULL && !quantity ==> s == Num(n)
  {
    if n == 0 then NULL else if quantity then Quantity(n, Seconds) else Num(n)
  }

  /** The progress rule: 100 percent reads as NULL and only 100 does. */
  function ProgramProgress(n: int, quantity: bool): (s: State)
    ensures s == NULL <==> n == 100
    ensures s != NULL && quantity ==> s == Quantity(n, Percent)
    ensures s != NULL && !quantity ==> s == Num(n)
  {
    if n == 100 then NULL else if quantity then Quantity(n, Percent) else Num(n)
  }
}
