/** TempAttendanceData: the attendance record built when a device reports
    a scan. The current date and time are inputs (LocalDate.now and
    LocalTime.now); their conversion to java.sql Date and Time is not
    modelled. */
module Attendance {
  import opened Text

  datatype LocalDate = LocalDate(year: int, month: nat, day: nat)

  /** A time of day down to the nanosecond. */
  datatype LocalTime = LocalTime(hour: nat, minute: nat, second: nat, nano: nat)

  predicate ValidTime(t: LocalTime) {
    t.hour < 24 && t.minute < 60 && t.second < 60 && t.nano < 1_000_000_000
  }

  function NanoOfDay(t: LocalTime): nat {
    ((t.hour * 60 + t.minute) * 60 + t.second) * 1_000_000_000 + t.nano
  }

  /** LocalTime.truncatedTo(SECONDS): the last whole second at or before
      t, with no sub-second part. */
  function TruncatedToSeconds(t: LocalTime): (r: LocalTime)
    requires ValidTime(t)
    ensures ValidTime(r) && r.nano == 0
    ensures NanoOfDay(r) <= NanoOfDay(t) < NanoOfDay(r) + 1_000_000_000
  {
    LocalTime(t.hour, t.minute, t.second, 0)
  }

  /** Truncating twice is truncating once; a time already on a whole
      second is unchanged. */
  lemma TruncateIdempotent(t: LocalTime)
    requires ValidTime(t)
    ensures TruncatedToSeconds(TruncatedToSeconds(t)) == TruncatedToSeconds(t)
    ensures t.nano == 0 ==> TruncatedToSeconds(t) == t
  {
  }

  class TempAttendanceData {
    var fingerprintId: Option<int>
    var dateNow: Option<LocalDate>
    var timeNow: Option<LocalTime>
    var eventName: Option<string>
    var eventLocation: Option<string>
    var firstName: Option<string>

    constructor()
      ensures fingerprintId == None && dateNow == None && timeNow == None
      ensures eventName == None && eventLocation == None && firstName == None
    {
      fingerprintId, dateNow, timeNow := None, None, None;
      eventName, eventLocation, firstName := None, None, None;
    }

    /** setFirstName: getFirstName returns it afterwards. */
    method SetFirstName(name: string)
      modifies this
      ensures firstName == Some(name)
      ensures fingerprintId == old(fingerprintId) && dateNow == old(dateNow) && timeNow == old(timeNow)
      ensures eventName == old(eventName) && eventLocation == old(eventLocation)
    {
      firstName := Some(name);
    }

    /** buildAttendanceData: the id is parsed first, so an id that does not
        parse changes nothing; otherwise the parsed id, today, the current
        time truncated to whole seconds and the event name and location are
        stored. The first name is never touched. */
    method BuildAttendanceData(idText: string, name: string, location: string,
                               today: LocalDate, now: LocalTime) returns (ok: bool)
      requires ValidTime(now)
      modifies this
      ensures ok <==> ParseInt(idText).Some?
      ensures ok ==> fingerprintId == ParseInt(idText) && dateNow == Some(today)
      ensures ok ==> timeNow == Some(TruncatedToSeconds(now)) && timeNow.value.nano == 0
      ensures ok ==> eventName == Some(name) && eventLocation == Some(location)
      ensures !ok ==> fingerprintId == old(fingerprintId) && dateNow == old(dateNow) && timeNow == old(timeNow)
      ensures !ok ==> eventName == old(eventName) && eventLocation == old(eventLocation)
      ensures firstName == old(firstName)
    {
      var parsed := ParseInt(idText);
      if parsed.None? {
        return false;
      }
      fingerprintId := parsed;
      dateNow := Some(today);
      timeNow := Some(TruncatedToSeconds(now));
      eventName := Some(name);
      eventLocation := Some(location);
      ok := true;
    }
  }
}
