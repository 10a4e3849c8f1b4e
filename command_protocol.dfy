/**
 * The `"lat,lon,alt,command"` text protocol the follower scripts read from
 * the radio: four comma-separated integers, latitude and longitude in
 * millionths of a degree. Three handlers parse it (rpi_execute/follower_drone.py,
 * test/follower_drone_test.py, missions/drone_mission.py); only command 1
 * starts a mission, and rpi_execute/follower_drone.py acknowledges it by
 * echoing the coordinates with command 2.
 */
module CommandProtocol {
  import opened Wrappers
  import opened Text
  import XbeeService

  /** A parsed order. */
  datatype Order = Order(lat: int, lon: int, alt: int, command: int)

  /** What parsing a payload gives: the wrong number of fields, a `ValueError`, or an order. */
  datatype Parsed = WrongFieldCount | NotInteger | Parsed(order: Order)

  /** `int()` on the four fields in order; the first that is not an integer raises. */
  function ParseFields(parts: seq<string>): (r: Parsed)
    ensures r == WrongFieldCount <==> |parts| != 4
    ensures r.Parsed? <==> |parts| == 4 && PyInt(parts[0]).Some? && PyInt(parts[1]).Some?
                           && PyInt(parts[2]).Some? && PyInt(parts[3]).Some?
    ensures r.Parsed? ==> r.order == Order(PyInt(parts[0]).value, PyInt(parts[1]).value,
                                           PyInt(parts[2]).value, PyInt(parts[3]).value)
  {
    if |parts| != 4 then WrongFieldCount
    else if PyInt(parts[0]).None? || PyInt(parts[1]).None? || PyInt(parts[2]).None? || PyInt(parts[3]).None? then
      NotInteger
    else Parsed(Order(PyInt(parts[0]).value, PyInt(parts[1]).value, PyInt(parts[2]).value, PyInt(parts[3]).value))
  }

  /** Fields that read as the same integers parse the same. */
  lemma ParseFieldsSameIntegers(a: seq<string>, b: seq<string>)
    requires |a| == |b|
    requires |a| == 4 ==> PyInt(a[0]) == PyInt(b[0]) && PyInt(a[1]) == PyInt(b[1])
                          && PyInt(a[2]) == PyInt(b[2]) && PyInt(a[3]) == PyInt(b[3])
    ensures ParseFields(a) == ParseFields(b)
  {
  }

  /** The parse of rpi_execute/follower_drone.py and missions/drone_mission.py: `data.split(',')`. */
  function Parse(data: string): Parsed
  {
    ParseFields(Split(data, ','))
  }

  /** `[p.strip() for p in parts]`. */
  function StripEach(parts: seq<string>): (r: seq<string>)
    ensures |r| == |parts| && forall i :: 0 <= i < |parts| ==> r[i] == Strip(parts[i])
  {
    if |parts| == 0 then [] else [Strip(parts[0])] + StripEach(parts[1..])
  }

  /** The parse of test/follower_drone_test.py: each field stripped before `int()`. */
  function ParseStripped(data: string): Parsed
  {
    ParseFields(StripEach(Split(data, ',')))
  }

  /**
   * `int()` already ignores surrounding whitespace, so stripping the fields
   * first changes nothing: the two parses agree on every payload.
   */
  lemma ParseStrippedAgrees(data: string)
    ensures ParseStripped(data) == Parse(data)
  {
    var parts := Split(data, ',');
    var stripped := StripEach(parts);
    if |parts| == 4 {
      StripIdempotent(parts[0]);
      StripIdempotent(parts[1]);
      StripIdempotent(parts[2]);
      StripIdempotent(parts[3]);
    }
    ParseFieldsSameIntegers(stripped, parts);
  }

  /** The payload for an order: the four integers joined by commas. */
  function Encode(o: Order): string
  {
    Join([IntToString(o.lat), IntToString(o.lon), IntToString(o.alt), IntToString(o.command)], ',')
  }

  /** Every order survives encoding and parsing, by either parser. */
  lemma EncodeRoundTrip(o: Order)
    ensures Parse(Encode(o)) == Parsed(o)
    ensures ParseStripped(Encode(o)) == Parsed(o)
  {
    var fields := [IntToString(o.lat), IntToString(o.lon), IntToString(o.alt), IntToString(o.command)];
    PlainFields(o);
    SplitJoin(fields, ',');
    assert Split(Encode(o), ',') == fields;
    PyIntRoundTrip(o.lat);
    PyIntRoundTrip(o.lon);
    PyIntRoundTrip(o.alt);
    PyIntRoundTrip(o.command);
    assert ParseFields(fields) == Parsed(o);
    ParseStrippedAgrees(Encode(o));
  }

  /** No field of an encoded order holds a comma. */
  lemma PlainFields(o: Order)
    ensures var fields := [IntToString(o.lat), IntToString(o.lon), IntToString(o.alt), IntToString(o.command)];
            forall i :: 0 <= i < |fields| ==> ',' !in fields[i]
  {
    IntToStringPlain(o.lat);
    IntToStringPlain(o.lon);
    IntToStringPlain(o.alt);
    IntToStringPlain(o.command);
  }

  /** `f"{lat},{lon},{alt},2"`: the acknowledgement rpi_execute/follower_drone.py broadcasts. */
  function Feedback(lat: int, lon: int, alt: int): string
  {
    IntToString(lat) + "," + IntToString(lon) + "," + IntToString(alt) + ",2"
  }

  /** The acknowledgement parses back to the same coordinates with command 2. */
  lemma FeedbackRoundTrip(lat: int, lon: int, alt: int)
    ensures Feedback(lat, lon, alt) == Encode(Order(lat, lon, alt, 2))
    ensures Parse(Feedback(lat, lon, alt)) == Parsed(Order(lat, lon, alt, 2))
  {
    var a, b, c := IntToString(lat), IntToString(lon), IntToString(alt);
    assert IntToString(2) == "2" by { assert NatToString(2) == [DigitChar(2)]; }
    JoinFour(a, b, c, "2", ',');
    assert a + "," + b + "," + c + ",2" == a + [','] + b + [','] + c + [','] + "2";
    EncodeRoundTrip(Order(lat, lon, alt, 2));
  }

  lemma JoinFour(a: string, b: string, c: string, d: string, sep: char)
    ensures Join([a, b, c, d], sep) == a + [sep] + b + [sep] + c + [sep] + d
  {
    assert [a, b, c, d][1..] == [b, c, d];
    assert [b, c, d][1..] == [c, d];
    assert [c, d][1..] == [d];
    assert Join([d], sep) == d;
    assert Join([c, d], sep) == c + [sep] + d;
    assert Join([b, c, d], sep) == b + [sep] + (c + [sep] + d);
    assert Join([a, b, c, d], sep) == a + [sep] + (b + [sep] + (c + [sep] + d));
  }

  /** A payload with other than three commas is never acted on. */
  lemma FieldCountDecides(data: string)
    ensures Parse(data).Parsed? ==> |Split(data, ',')| == 4
    ensures |Split(data, ',')| != 4 ==> Parse(data) == WrongFieldCount
  {
  }

  /** Millionths of a degree to degrees: `value / 1000000.0`. */
  function MicroDegrees(value: int): (deg: real)
    ensures deg * 1000000.0 == value as real
  {
    value as real / 1000000.0
  }

  /** `message_dict.get("data", "")`; `None` when the value is not text (`split` then raises). */
  function MessageData(d: XbeeService.MessageDict): (r: Option<string>)
    ensures "data" !in d ==> r == Some("")
    ensures "data" in d ==> (r.Some? <==> d["data"].Text?)
  {
    match XbeeService.Get(d, "data", XbeeService.Text(""))
    case Text(s) => Some(s)
    case _ => None
  }

  /** The order a handler acts on: a well-formed payload whose command is 1. */
  function MissionOrder(d: XbeeService.MessageDict): (r: Option<Order>)
    ensures r.Some? <==> MessageData(d).Some? && Parse(MessageData(d).value).Parsed?
                         && Parse(MessageData(d).value).order.command == 1
    ensures r.Some? ==> r.value == Parse(MessageData(d).value).order
  {
    match MessageData(d)
    case None => None
    case Some(data) =>
      match Parse(data)
      case Parsed(o) => if o.command == 1 then Some(o) else None
      case _ => None
  }

  /** A message carrying an encoded order starts a mission exactly when the command is 1. */
  lemma EncodedOrderStartsMission(d: XbeeService.MessageDict, o: Order)
    requires "data" in d && d["data"] == XbeeService.Text(Encode(o))
    ensures MissionOrder(d) == (if o.command == 1 then Some(o) else None)
  {
    EncodeRoundTrip(o);
  }

  /** The acknowledgement itself never starts a mission, so two followers cannot echo forever. */
  lemma FeedbackStartsNothing(d: XbeeService.MessageDict, lat: int, lon: int, alt: int)
    requires "data" in d && d["data"] == XbeeService.Text(Feedback(lat, lon, alt))
    ensures MissionOrder(d).None?
  {
    FeedbackRoundTrip(lat, lon, alt);
  }
}
