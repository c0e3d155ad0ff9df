// The alarm page: a table of five alarms, a cyclic selection, an edit mode
// in which the joystick moves the selected alarm's hour around the clock,
// and a once-a-minute check that rings the enabled alarms matching a clock
// simulated from millis().

module AlarmPage {
  import opened Clock
  import opened PageBase

  datatype Alarm = Alarm(hour: int, minute: int, name: string, enabled: bool, repeat: seq<bool>)

  const AlarmCount: int := 5
  const CheckInterval: nat := 60000

  const Weekdays: seq<bool> := [false, true, true, true, true, true, false]

  /** The alarm table as the firmware starts with it. */
  const InitialAlarms: seq<Alarm> := [
    Alarm(7, 30, "Wake Up", true, Weekdays),
    Alarm(12, 0, "Lunch Break", false, Weekdays),
    Alarm(18, 30, "Dinner Time", true, [true, true, true, true, true, true, true]),
    Alarm(22, 0, "Sleep Reminder", false, Weekdays),
    Alarm(6, 0, "Morning Jog", false, [false, false, false, false, false, false, true])
  ]

  /** A time of day every alarm keeps. */
  predicate WellFormed(a: Alarm)
  {
    0 <= a.hour < 24 && 0 <= a.minute < 60 && |a.repeat| == 7
  }

  /** The alarm with its hour moved `delta` hours around the clock. */
  function ShiftHour(a: Alarm, delta: int): (r: Alarm)
    requires WellFormed(a)
    ensures WellFormed(r)
    ensures r.minute == a.minute && r.name == a.name && r.enabled == a.enabled && r.repeat == a.repeat
  {
    a.(hour := (a.hour + delta) % 24)
  }

  /** An hour up followed by an hour down restores the alarm, and the other
    * way round. */
  lemma {:induction false} ShiftHourInverse(a: Alarm)
    requires WellFormed(a)
    ensures ShiftHour(ShiftHour(a, 1), -1) == a
    ensures ShiftHour(ShiftHour(a, -1), 1) == a
  {
    assert (a.hour + 1) % 24 - 1 == if a.hour == 23 then -1 else a.hour;
    assert (a.hour - 1) % 24 + 1 == if a.hour == 0 then 24 else a.hour;
  }

  /** The clock checkAlarms simulates from the time since boot. */
  function SimulatedHour(t: Millis): (h: int)
    ensures 0 <= h < 24
  {
    (t / 3600000) % 24
  }

  function SimulatedMinute(t: Millis): (m: int)
    ensures 0 <= m < 60
  {
    (t / 60000) % 60
  }

  /** Whether `a` rings at `h`:`m`. */
  predicate Rings(a: Alarm, h: int, m: int)
  {
    a.enabled && a.hour == h && a.minute == m
  }

  /** The indices below `n`, ascending, of the alarms that ring at `h`:`m`. */
  function Matching(s: seq<Alarm>, h: int, m: int, n: nat): seq<int>
    requires n <= |s|
  {
    if n == 0 then []
    else Matching(s, h, m, n - 1) + (if Rings(s[n - 1], h, m) then [n - 1] else [])
  }

  /** Matching lists exactly the ringing alarms, each once, in table order. */
  lemma {:induction false} MatchingExactly(s: seq<Alarm>, h: int, m: int, n: nat)
    requires n <= |s|
    ensures forall i :: i in Matching(s, h, m, n) <==> 0 <= i < n && Rings(s[i], h, m)
    ensures forall j, k :: 0 <= j < k < |Matching(s, h, m, n)| ==>
      Matching(s, h, m, n)[j] < Matching(s, h, m, n)[k]
  {
    if n > 0 {
      MatchingExactly(s, h, m, n - 1);
      var prev := Matching(s, h, m, n - 1);
      forall j | 0 <= j < |prev|
        ensures prev[j] < n - 1
      {
        assert prev[j] in prev;
      }
    }
  }

  class AlarmBoard {
    /** The static alarm table. */
    const alarms: array<Alarm>
    var selectedAlarm: int
    var editMode: bool
    /** The static lastCheck of checkAlarms. */
    var lastCheck: Millis

    ghost predicate Valid()
      reads this, alarms
    {
      && alarms.Length == AlarmCount
      && 0 <= selectedAlarm < AlarmCount
      && forall i :: 0 <= i < AlarmCount ==> WellFormed(alarms[i])
    }

    /** The initial table, the first alarm selected, not editing. */
    constructor ()
      ensures Valid() && fresh(alarms)
      ensures alarms[..] == InitialAlarms
      ensures selectedAlarm == 0 && !editMode && lastCheck == 0
    {
      alarms := new Alarm[AlarmCount](i requires 0 <= i < AlarmCount => InitialAlarms[i]);
      selectedAlarm := 0;
      editMode := false;
      lastCheck := 0;
    }

    /** onKey: TOP and BOTTOM move the selection cyclically; in edit mode
      * LEFT and RIGHT move the selected alarm's hour down or up, wrapping
      * between 0 and 23; nothing else changes. */
    method OnKey(dir: Dir)
      requires Valid()
      modifies this, alarms
      ensures Valid()
      ensures dir == Top ==> selectedAlarm == Pred(old(selectedAlarm), AlarmCount)
      ensures dir == Bottom ==> selectedAlarm == Succ(old(selectedAlarm), AlarmCount)
      ensures dir != Top && dir != Bottom ==> selectedAlarm == old(selectedAlarm)
      ensures dir == Left && editMode ==>
        alarms[..] == old(alarms[..])[selectedAlarm := ShiftHour(old(alarms[selectedAlarm]), -1)]
      ensures dir == Right && editMode ==>
        alarms[..] == old(alarms[..])[selectedAlarm := ShiftHour(old(alarms[selectedAlarm]), 1)]
      ensures !((dir == Left || dir == Right) && editMode) ==> alarms[..] == old(alarms[..])
      ensures editMode == old(editMode) && lastCheck == old(lastCheck)
    {
      match dir
      case Top =>
        selectedAlarm := selectedAlarm - 1;
        if selectedAlarm < 0 {
          selectedAlarm := AlarmCount - 1;
        }
      case Bottom =>
        selectedAlarm := selectedAlarm + 1;
        if selectedAlarm >= AlarmCount {
          selectedAlarm := 0;
        }
      case Left =>
        if editMode {
          var h := alarms[selectedAlarm].hour - 1;
          if h < 0 {
            h := 23;
          }
          alarms[selectedAlarm] := alarms[selectedAlarm].(hour := h);
        }
      case Right =>
        if editMode {
          var h := alarms[selectedAlarm].hour + 1;
          if h > 23 {
            h := 0;
          }
          alarms[selectedAlarm] := alarms[selectedAlarm].(hour := h);
        }
      case DirNone =>
    }

    /** onButton: a press toggles the selected alarm on or off. */
    method OnButton(pressed: bool)
      requires Valid()
      modifies alarms
      ensures Valid()
      ensures pressed ==>
        alarms[..] == old(alarms[..])[selectedAlarm := old(alarms[selectedAlarm]).(enabled := !old(alarms[selectedAlarm].enabled))]
      ensures !pressed ==> alarms[..] == old(alarms[..])
    {
      if !pressed {
        return;
      }
      ToggleAlarm(selectedAlarm);
    }

    /** toggleAlarm: flips `enabled` of alarm `index`; an index outside the
      * table does nothing. */
    method ToggleAlarm(index: int)
      requires Valid()
      modifies alarms
      ensures Valid()
      ensures 0 <= index < AlarmCount ==>
        alarms[..] == old(alarms[..])[index := old(alarms[index]).(enabled := !old(alarms[index].enabled))]
      ensures !(0 <= index < AlarmCount) ==> alarms[..] == old(alarms[..])
    {
      if 0 <= index < AlarmCount {
        alarms[index] := alarms[index].(enabled := !alarms[index].enabled);
      }
    }

    /** editAlarm: in edit mode, moves alarm `index`'s hour up by one,
      * wrapping to 0 after 23; otherwise, or out of range, nothing. */
    method EditAlarm(index: int)
      requires Valid()
      modifies alarms
      ensures Valid()
      ensures 0 <= index < AlarmCount && editMode ==>
        alarms[..] == old(alarms[..])[index := ShiftHour(old(alarms[index]), 1)]
      ensures !(0 <= index < AlarmCount && editMode) ==> alarms[..] == old(alarms[..])
    {
      if 0 <= index < AlarmCount && editMode {
        var h := alarms[index].hour + 1;
        if h > 23 {
          h := 0;
        }
        alarms[index] := alarms[index].(hour := h);
      }
    }

    /** Key B on the alarm page: the shell flips edit mode. */
    method FlipEditMode()
      requires Valid()
      modifies this
      ensures Valid()
      ensures editMode == !old(editMode)
      ensures selectedAlarm == old(selectedAlarm) && lastCheck == old(lastCheck)
    {
      editMode := !editMode;
    }

    /** checkAlarms: less than a minute after the last check nothing
      * happens; otherwise the check time becomes now and the alarms that
      * ring at the simulated time are triggered, in table order. */
    method CheckAlarms(now: Millis) returns (triggered: seq<int>)
      requires Valid()
      modifies this
      ensures Valid()
      ensures Elapsed(now, old(lastCheck)) < CheckInterval ==> triggered == [] && lastCheck == old(lastCheck)
      ensures Elapsed(now, old(lastCheck)) >= CheckInterval ==>
        && triggered == Matching(alarms[..], SimulatedHour(now), SimulatedMinute(now), AlarmCount)
        && lastCheck == now
      ensures selectedAlarm == old(selectedAlarm) && editMode == old(editMode)
    {
      if Elapsed(now, lastCheck) < CheckInterval {
        return [];
      }
      lastCheck := now;
      var h := (now / 3600000) % 24;
      var m := (now / 60000) % 60;
      triggered := [];
      for i := 0 to AlarmCount
        invariant triggered == Matching(alarms[..], h, m, i)
      {
        if alarms[i].enabled && alarms[i].hour == h && alarms[i].minute == m {
          triggered := triggered + [i];
        }
      }
    }
  }
}
