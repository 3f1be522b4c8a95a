/**
 * The API client's value objects (Data, Event, Program and its options, HomeAppliance) and
 * the null rules by which a parsed JSON payload becomes these objects.
 */
module Model {
  import opened Wrappers
  import opened Text
  import opened Numbers

  /** A value the Java code reads with getValueAsInt: null, or a text Integer.valueOf accepts. */
  predicate IntValued(v: Option<string>) {
    v.None? || ParseJavaInt(v.value).Some?
  }

  /** getValueAsInt: 0 for a null value, otherwise the value read as a decimal int. */
  function IntValue(v: Option<string>): (r: int)
    requires IntValued(v)
    ensures v.None? ==> r == 0
    ensures v.Some? ==> ParseJavaInt(v.value) == Some(r)
    ensures InIntRange(r)
  {
    if v.None? then 0 else ParseJavaInt(v.value).value
  }

  /** getValueAsBoolean: false for null, otherwise Boolean.valueOf (equal to "true" ignoring case). */
  function BoolValue(v: Option<string>): (r: bool)
    ensures r <==> v.Some? && |v.value| == 4 && v.value[0] in "tT" && v.value[1] in "rR" &&
                   v.value[2] in "uU" && v.value[3] in "eE"
  {
    v.Some? && EqualsIgnoreCase(v.value, "true")
  }

  /** The text an int is written as comes back as that int. */
  lemma IntValueOfWritten(n: int)
    requires InIntRange(n)
    ensures IntValued(Some(IntToString(n))) && IntValue(Some(IntToString(n))) == n
  {
    ParseIntToString(n);
  }

  /** A setting or status value: (name, value, unit); the getters are the fields. */
  datatype Data = Data(name: string, value: Option<string>, unit: Option<string>) {
    function ValueAsInt(): int
      requires IntValued(value)
    {
      IntValue(value)
    }

    function ValueAsBoolean(): bool {
      BoolValue(value)
    }
  }

  /** A streamed event; its key, value and unit may each be null. */
  datatype Event = Event(key: Option<string>, value: Option<string>, unit: Option<string>) {
    function ValueAsInt(): int
      requires IntValued(value)
    {
      IntValue(value)
    }

    function ValueAsBoolean(): bool {
      BoolValue(value)
    }
  }

  /** One option of a program, with the same three nullable fields as an event. */
  datatype ProgramOption = ProgramOption(key: Option<string>, value: Option<string>, unit: Option<string>) {
    function ValueAsInt(): int
      requires IntValued(value)
    {
      IntValue(value)
    }
  }

  /** An active or selected program: its key and its options in payload order. */
  datatype Program = Program(key: Option<string>, options: seq<ProgramOption>)

  /** A home appliance as listed by the API. */
  datatype HomeAppliance = HomeAppliance(
    haId: string, name: string, brand: string, vib: string, connected: bool, typeName: string,
    enumber: string)

  /** A member of a parsed JSON object: missing, JSON null, or a primitive read as text. */
  datatype JsonField = Absent | JsonNull | JsonText(text: string)

  /** One element of the `items` (event frame) or `options` (program) array. */
  datatype JsonItem = JsonItem(key: JsonField, value: JsonField, unit: JsonField)

  /** `data` of a program payload: its key and its options array. */
  datatype JsonProgram = JsonProgram(key: JsonField, options: seq<JsonItem>)

  /**
   * The rule for `key` and `unit`: a missing member gives null, a text gives the text, and
   * JSON null makes getAsString throw (None here).
   */
  function StrictField(f: JsonField): Option<Option<string>> {
    match f
    case Absent => Some(None)
    case JsonNull => None
    case JsonText(t) => Some(Some(t))
  }

  /** The rule for `value`: a missing member and JSON null both give null. */
  function LenientField(f: JsonField): (r: Option<string>)
    ensures r.Some? <==> f.JsonText?
  {
    if f.JsonText? then Some(f.text) else None
  }

  /** An item mapToEvents/mapToProgram can read without an exception. */
  predicate Readable(item: JsonItem) {
    item.key != JsonNull && item.unit != JsonNull
  }

  function DecodeEvent(item: JsonItem): (e: Event)
    requires Readable(item)
    ensures e.value.Some? <==> item.value.JsonText?
    ensures e.key.None? <==> item.key.Absent?
  {
    Event(StrictField(item.key).value, LenientField(item.value), StrictField(item.unit).value)
  }

  function DecodeOption(item: JsonItem): (o: ProgramOption)
    requires Readable(item)
    ensures o.value.Some? <==> item.value.JsonText?
    ensures o.key.None? <==> item.key.Absent?
  {
    ProgramOption(StrictField(item.key).value, LenientField(item.value), StrictField(item.unit).value)
  }

  /** Every item can be read (no JSON-null key or unit). */
  predicate AllReadable(items: seq<JsonItem>) {
    forall i :: 0 <= i < |items| ==> Readable(items[i])
  }

  /**
   * The events of an event frame: one per item, in item order; None when some item has a
   * JSON-null key or unit (getAsString throws and no list is returned).
   */
  function EventsOf(items: seq<JsonItem>): (r: Option<seq<Event>>)
    ensures r.Some? <==> AllReadable(items)
    ensures r.Some? ==> |r.value| == |items| && forall i :: 0 <= i < |items| ==> r.value[i] == DecodeEvent(items[i])
  {
    if AllReadable(items) then Some(seq(|items|, i requires 0 <= i < |items| => DecodeEvent(items[i])))
    else None
  }

  /**
   * The program of a program payload: its key must be a text, and its options are read like
   * event items, in order; None when reading throws.
   */
  function ProgramOf(data: JsonProgram): (r: Option<Program>)
    ensures r.Some? <==> data.key.JsonText? && AllReadable(data.options)
    ensures r.Some? ==> r.value.key == Some(data.key.text) && |r.value.options| == |data.options|
    ensures r.Some? ==> forall i :: 0 <= i < |data.options| ==> r.value.options[i] == DecodeOption(data.options[i])
  {
    if data.key.JsonText? && AllReadable(data.options) then
      Some(Program(Some(data.key.text), seq(|data.options|, i requires 0 <= i < |data.options| => DecodeOption(data.options[i]))))
    else None
  }

  /** mapToEvents: the loop over the `items` array. */
  method MapToEvents(items: seq<JsonItem>) returns (r: Option<seq<Event>>)
    ensures r == EventsOf(items)
  {
    var events: seq<Event> := [];
    var i := 0;
    while i < |items|
      invariant 0 <= i <= |items|
      invariant |events| == i
      invariant forall j :: 0 <= j < i ==> Readable(items[j]) && events[j] == DecodeEvent(items[j])
    {
      if !Readable(items[i]) {
        return None;
      }
      events := events + [DecodeEvent(items[i])];
      i := i + 1;
    }
    assert AllReadable(items);
    assert events == EventsOf(items).value;
    r := Some(events);
  }

  /** mapToProgram: the program key, then the loop over the `options` array. */
  method MapToProgram(data: JsonProgram) returns (r: Option<Program>)
    ensures r == ProgramOf(data)
  {
    if !data.key.JsonText? {
      return None;
    }
    var options: seq<ProgramOption> := [];
    var i := 0;
    while i < |data.options|
      invariant 0 <= i <= |data.options|
      invariant |options| == i
      invariant forall j :: 0 <= j < i ==> Readable(data.options[j]) && options[j] == DecodeOption(data.options[j])
    {
      if !Readable(data.options[i]) {
        return None;
      }
      options := options + [DecodeOption(data.options[i])];
      i := i + 1;
    }
    assert AllReadable(data.options);
    assert options == ProgramOf(data).value.options;
    r := Some(Program(Some(data.key.text), options));
  }
}
