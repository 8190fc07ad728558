/**
 * The four `#SYSTEM` commands that set a controller's location, UTC offset,
 * date and time. Each is one line ending in a carriage return.
 */
module Batch {
  import opened Wrappers
  import Decimal

  const Prefix: string := "#SYSTEM,"

  /** Integration codes of the `#SYSTEM` command. */
  const LocationCode: nat := 4
  const TimeZoneCode: nat := 5
  const DateCode: nat := 2
  const TimeCode: nat := 1

  /** `#SYSTEM,<code>,<payload>` followed by a carriage return. */
  function SystemCommand(code: nat, payload: string): string
    requires code < 10
  {
    Prefix + [Decimal.DigitChar(code)] + "," + payload + "\r"
  }

  /** Recovers the code and payload of a one-digit `#SYSTEM` command line. */
  function ParseSystemCommand(line: string): Option<(nat, string)>
  {
    if |line| >= 11 && line[..8] == Prefix && Decimal.IsDigit(line[8])
       && line[9] == ',' && line[|line| - 1] == '\r'
    then Some((line[8] as int - '0' as int, line[10..|line| - 1]))
    else None
  }

  lemma ParseSystemCommandOf(code: nat, payload: string)
    requires code < 10
    ensures ParseSystemCommand(SystemCommand(code, payload)) == Some((code, payload))
  {
    var line := SystemCommand(code, payload);
    assert line[..8] == Prefix;
    assert line[10..|line| - 1] == payload;
  }

  /** The codes of a batch, in the order the commands are sent. */
  const BatchCodes: seq<nat> := [LocationCode, TimeZoneCode, DateCode, TimeCode]

  /**
   * The batch the server builds for a new position: location, UTC offset in
   * hours, local date (MM/DD/YYYY) and local time (HH:mm:ss), in that order.
   * The date and time texts come from the time-zone library as inputs.
   */
  function BuildBatch(latitude: string, longitude: string, utcOffsetMinutes: int, date: string, time: string)
    : (batch: seq<string>)
    requires utcOffsetMinutes % 15 == 0
    ensures |batch| == 4
    ensures forall i :: 0 <= i < 4 ==> |batch[i]| > 0 && batch[i][|batch[i]| - 1] == '\r'
    ensures ParseSystemCommand(batch[0]) == Some((4, latitude + "," + longitude))
    ensures ParseSystemCommand(batch[1]) == Some((5, Decimal.HoursText(utcOffsetMinutes)))
    ensures ParseSystemCommand(batch[2]) == Some((2, date))
    ensures ParseSystemCommand(batch[3]) == Some((1, time))
    ensures forall i :: 0 <= i < 4 ==>
              ParseSystemCommand(batch[i]).Some? && ParseSystemCommand(batch[i]).value.0 == BatchCodes[i]
  {
    var batch := [
      SystemCommand(LocationCode, latitude + "," + longitude),
      SystemCommand(TimeZoneCode, Decimal.HoursText(utcOffsetMinutes)),
      SystemCommand(DateCode, date),
      SystemCommand(TimeCode, time)];
    ParseSystemCommandOf(LocationCode, latitude + "," + longitude);
    ParseSystemCommandOf(TimeZoneCode, Decimal.HoursText(utcOffsetMinutes));
    ParseSystemCommandOf(DateCode, date);
    ParseSystemCommandOf(TimeCode, time);
    batch
  }

  /** The offset command carries hours: a whole-hour zone at -300 minutes sends `#SYSTEM,5,-5`. */
  lemma OffsetCommandInHours(latitude: string, longitude: string, date: string, time: string)
    ensures BuildBatch(latitude, longitude, -300, date, time)[1] == "#SYSTEM,5,-5\r"
  {
  }

  /** Reading the offset back from the batch gives the zone's offset in minutes. */
  lemma OffsetCommandRoundTrip(latitude: string, longitude: string, utcOffsetMinutes: int, date: string, time: string)
    requires utcOffsetMinutes % 15 == 0
    ensures Decimal.ParseHours(ParseSystemCommand(BuildBatch(latitude, longitude, utcOffsetMinutes, date, time)[1]).value.1)
            == Some(utcOffsetMinutes)
  {
    Decimal.HoursRoundTrip(utcOffsetMinutes);
  }
}
