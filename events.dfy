/** The values the collector handles: Windows event-log handles and error
    codes, the structured event a rendered record parses into, and the
    "win_event" metric formed from it. */
module Events {
  import Text

  newtype byte = x: int | 0 <= x < 256

  datatype Option<T> = None | Some(value: T)

  /** An event-log handle (EVT_HANDLE); 0 is the unset handle. */
  type Handle = nat

  /** A Windows error code returned by an event-log call. */
  type Errno = nat

  /** The code with which the event log reports that nothing more is
      buffered (ERROR_NO_MORE_ITEMS). */
  const ERROR_NO_MORE_ITEMS: Errno := 259

  /** One entry of an event's EventData section. */
  datatype Pair = Pair(key: string, value: string)

  /** A parsed event. The creation time is kept as the opaque string its
      formatting produces. */
  datatype Event = Event(
    recordID: nat,
    eventID: int,
    level: string,
    provider: string,
    timeCreated: string,
    eventData: seq<Pair>)

  /** The zero value of an event. Its creation time is the formatting of a
      zero timestamp, which is not fixed here and so is a parameter. */
  function ZeroEvent(zeroTime: string): Event
  {
    Event(0, 0, "", "", zeroTime, [])
  }

  /** A metric field value. */
  datatype Value = UInt(u: nat) | Int(i: int) | Str(s: string)

  datatype Metric = Metric(measurement: string, fields: map<string, Value>, tags: map<string, string>)

  const Measurement := "win_event"

  /** The names of a metric's fields. */
  const FieldNames: set<string> := {"recordID", "eventID", "message", "source", "created"}

  /** The separator placed between EventData values in a message. */
  const Newline: char := '\n'

  /** The values of the EventData pairs, in order; keys are dropped. */
  function Values(pairs: seq<Pair>): (r: seq<string>)
    ensures |r| == |pairs|
    ensures forall i :: 0 <= i < |pairs| ==> r[i] == pairs[i].value
  {
    if pairs == [] then [] else [pairs[0].value] + Values(pairs[1..])
  }

  /** Gathers the EventData values one pair at a time, appending each. */
  method CollectValues(pairs: seq<Pair>) returns (message: seq<string>)
    ensures |message| == |pairs|
    ensures forall i :: 0 <= i < |pairs| ==> message[i] == pairs[i].value
    ensures message == Values(pairs)
  {
    message := [];
    for i := 0 to |pairs|
      invariant |message| == i
      invariant forall j :: 0 <= j < i ==> message[j] == pairs[j].value
    {
      message := message + [pairs[i].value];
    }
  }

  /** An event's message: its EventData values joined by newlines. */
  function Message(evt: Event): (r: string)
    ensures evt.eventData == [] ==> r == ""
    ensures |evt.eventData| >= 1 ==> evt.eventData[0].value <= r
  {
    Text.Join(Values(evt.eventData), [Newline])
  }

  /** The metric the collector adds for an event whose message is
      `message`: exactly the five fields and the one tag, each carrying the
      event attribute it is named after. */
  function EventMetric(evt: Event, message: string): (m: Metric)
    ensures m.measurement == "win_event"
    ensures m.fields.Keys == FieldNames && m.tags.Keys == {"level"}
    ensures m.fields["recordID"] == UInt(evt.recordID)
    ensures m.fields["eventID"] == Int(evt.eventID)
    ensures m.fields["message"] == Str(message)
    ensures m.fields["source"] == Str(evt.provider)
    ensures m.fields["created"] == Str(evt.timeCreated)
    ensures m.tags["level"] == evt.level
  {
    Metric(
      Measurement,
      map[
        "recordID" := UInt(evt.recordID),
        "eventID" := Int(evt.eventID),
        "message" := Str(message),
        "source" := Str(evt.provider),
        "created" := Str(evt.timeCreated)],
      map["level" := evt.level])
  }

  /** The metric the collector adds for an event: its message field holds
      the EventData values joined by newlines. */
  function ToMetric(evt: Event): (m: Metric)
    ensures m.fields.Keys == FieldNames && m.tags.Keys == {"level"}
    ensures m.fields["message"] == Str(Text.Join(Values(evt.eventData), "\n"))
  {
    EventMetric(evt, Message(evt))
  }

  /** The message loses nothing: when no value holds a newline, splitting
      the message field at newlines gives back the EventData values. */
  lemma MessageRecoversValues(evt: Event)
    requires |evt.eventData| >= 1
    requires forall i :: 0 <= i < |evt.eventData| ==> Newline !in evt.eventData[i].value
    ensures ToMetric(evt).fields["message"].Str?
    ensures Text.Split(ToMetric(evt).fields["message"].s, Newline) == Values(evt.eventData)
  {
    Text.SplitJoin(Values(evt.eventData), Newline);
  }

  /** Keys of EventData pairs never reach the metric: two events that agree
      on everything but those keys give the same metric. */
  lemma MetricIgnoresKeys(e1: Event, e2: Event)
    requires e1.recordID == e2.recordID && e1.eventID == e2.eventID && e1.level == e2.level
    requires e1.provider == e2.provider && e1.timeCreated == e2.timeCreated
    requires |e1.eventData| == |e2.eventData|
    requires forall i :: 0 <= i < |e1.eventData| ==> e1.eventData[i].value == e2.eventData[i].value
    ensures ToMetric(e1) == ToMetric(e2)
  {
    assert Values(e1.eventData) == Values(e2.eventData);
  }

  /** Values "a" and "b" give "a\nb", whatever their keys; no pairs give "". */
  lemma MessageExamples(k1: string, k2: string)
    ensures Message(Event(0, 0, "", "", "", [Pair(k1, "a"), Pair(k2, "b")])) == "a\nb"
    ensures Message(ZeroEvent("")) == ""
  {
    var vs := Values([Pair(k1, "a"), Pair(k2, "b")]);
    assert vs == ["a", "b"];
    assert vs[1..] == ["b"];
    assert Text.Join(vs, [Newline]) == "a" + [Newline] + "b";
  }

  /** The zero event gives a metric of zeros and empty strings, apart from
      the formatted zero timestamp in `created`. */
  lemma ZeroEventMetric(zeroTime: string)
    ensures ToMetric(ZeroEvent(zeroTime)).fields == map[
      "recordID" := UInt(0), "eventID" := Int(0), "message" := Str(""),
      "source" := Str(""), "created" := Str(zeroTime)]
    ensures ToMetric(ZeroEvent(zeroTime)).tags == map["level" := ""]
  {
  }
}
