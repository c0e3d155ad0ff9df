// The countdown timer page: a duration of 1 to 120 whole minutes, a
// remaining time in seconds that a running timer lowers by one per second
// of millis(), and the arc and "MM:SS" readout derived from them.

module TimerPage {
  import opened Text
  import opened Clock

  const MinMinutes: int := 1
  const MaxMinutes: int := 120
  const DefaultMinutes: int := 5
  const TickInterval: nat := 1000
  /** The arc runs from 0 to ArcRange. */
  const ArcRange: int := 300

  /** The arc value for `remaining` seconds out of `totalMinutes` minutes. */
  function ArcValue(remaining: int, totalMinutes: int): (p: int)
    requires totalMinutes >= 1 && 0 <= remaining <= totalMinutes * 60
    ensures 0 <= p <= ArcRange
    ensures p == ArcRange <==> remaining == totalMinutes * 60
    ensures p == 0 <==> remaining * 300 < totalMinutes * 60
  {
    var total := totalMinutes * 60;
    DivAtLeast(remaining * 300, total, 0);
    DivAtLeast(remaining * 300, total, 1);
    DivAtLeast(remaining * 300, total, 300);
    DivAtLeast(remaining * 300, total, 301);
    remaining * 300 / total
  }

  /** Less time left never shows a fuller arc. */
  lemma {:induction false} ArcMonotone(r1: int, r2: int, totalMinutes: int)
    requires totalMinutes >= 1 && 0 <= r1 <= r2 <= totalMinutes * 60
    ensures ArcValue(r1, totalMinutes) <= ArcValue(r2, totalMinutes)
  {
    var total := totalMinutes * 60;
    var p1 := ArcValue(r1, totalMinutes);
    DivAtLeast(r1 * 300, total, p1);
    DivAtLeast(r2 * 300, total, p1);
  }

  /** The "%02d:%02d" readout of `remaining` seconds: the two fields read
    * back as the whole minutes and the seconds left over. */
  function Readout(remaining: nat): (s: string)
    ensures |s| >= 5 && s[|s| - 3] == ':'
    ensures forall i :: 0 <= i < |s| - 3 ==> '0' <= s[i] <= '9'
    ensures forall i :: |s| - 2 <= i < |s| ==> '0' <= s[i] <= '9'
    ensures DecValue(s[..|s| - 3]) == remaining / 60
    ensures DecValue(s[|s| - 2..]) == remaining % 60 < 60
  {
    var m, sec := ZeroPad2(remaining / 60), ZeroPad2(remaining % 60);
    ColonJoin(m, sec);
    m + ":" + sec
  }

  class Timer {
    var isRunning: bool
    var totalMinutes: int
    var remainingSeconds: int
    var lastUpdateTime: Millis

    /** The bounds every operation keeps; a running timer has time left. */
    ghost predicate Valid()
      reads this
    {
      && MinMinutes <= totalMinutes <= MaxMinutes
      && 0 <= remainingSeconds <= totalMinutes * 60
      && (isRunning ==> remainingSeconds > 0)
    }

    /** Five minutes, full, stopped. */
    constructor ()
      ensures Valid()
      ensures !isRunning && totalMinutes == DefaultMinutes && remainingSeconds == 300 && lastUpdateTime == 0
    {
      isRunning := false;
      totalMinutes := DefaultMinutes;
      remainingSeconds := DefaultMinutes * 60;
      lastUpdateTime := 0;
    }

    /** updateTimerDisplay: a running timer whose last tick is at least a
      * second old loses one second and records now; reaching zero stops it. */
    method Refresh(now: Millis)
      requires Valid()
      modifies this
      ensures Valid()
      ensures totalMinutes == old(totalMinutes)
      ensures old(isRunning) && Elapsed(now, old(lastUpdateTime)) >= TickInterval ==>
        && remainingSeconds == old(remainingSeconds) - 1
        && lastUpdateTime == now
        && (isRunning <==> remainingSeconds > 0)
      ensures !(old(isRunning) && Elapsed(now, old(lastUpdateTime)) >= TickInterval) ==>
        isRunning == old(isRunning) && remainingSeconds == old(remainingSeconds)
        && lastUpdateTime == old(lastUpdateTime)
    {
      if isRunning {
        if Elapsed(now, lastUpdateTime) >= TickInterval {
          remainingSeconds := remainingSeconds - 1;
          lastUpdateTime := now;
          if remainingSeconds <= 0 {
            isRunning := false;
            remainingSeconds := 0;
            return;
          }
        }
      }
    }

    /** startStopTimer: pause a running timer; start a stopped one only when
      * time is left, restarting the tick clock at now. */
    method StartStop(now: Millis)
      requires Valid()
      modifies this
      ensures Valid()
      ensures isRunning <==> !old(isRunning) && old(remainingSeconds) > 0
      ensures totalMinutes == old(totalMinutes) && remainingSeconds == old(remainingSeconds)
      ensures lastUpdateTime == if isRunning then now else old(lastUpdateTime)
    {
      if isRunning {
        isRunning := false;
      } else {
        if remainingSeconds > 0 {
          isRunning := true;
          lastUpdateTime := now;
        }
      }
      Refresh(now);
    }

    /** resetTimer: stopped, full. */
    method Reset(now: Millis)
      requires Valid()
      modifies this
      ensures Valid()
      ensures !isRunning && remainingSeconds == totalMinutes * 60
      ensures totalMinutes == old(totalMinutes) && lastUpdateTime == old(lastUpdateTime)
    {
      isRunning := false;
      remainingSeconds := totalMinutes * 60;
      Refresh(now);
    }

    /** updateTimer: the periodic tick runs only while the timer runs. */
    method UpdateTimer(now: Millis)
      requires Valid()
      modifies this
      ensures Valid()
      ensures !old(isRunning) ==>
        isRunning == old(isRunning) && remainingSeconds == old(remainingSeconds) && lastUpdateTime == old(lastUpdateTime)
      ensures old(isRunning) && Elapsed(now, old(lastUpdateTime)) >= TickInterval ==>
        remainingSeconds == old(remainingSeconds) - 1 && (isRunning <==> remainingSeconds > 0)
      ensures totalMinutes == old(totalMinutes)
    {
      if isRunning {
        Refresh(now);
      }
    }

    /** adjustTime: ignored while running; otherwise the duration moves by
      * `minutes`, clamped to [1, 120], and the remaining time refills. */
    method AdjustTime(minutes: int, now: Millis)
      requires Valid()
      modifies this
      ensures Valid()
      ensures old(isRunning) ==>
        totalMinutes == old(totalMinutes) && remainingSeconds == old(remainingSeconds) && isRunning
      ensures !old(isRunning) ==>
        && totalMinutes == Constrain(old(totalMinutes) + minutes, MinMinutes, MaxMinutes)
        && remainingSeconds == totalMinutes * 60
        && !isRunning
      ensures lastUpdateTime == old(lastUpdateTime)
    {
      if isRunning {
        return;
      }
      totalMinutes := totalMinutes + minutes;
      if totalMinutes < MinMinutes {
        totalMinutes := MinMinutes;
      }
      if totalMinutes > MaxMinutes {
        totalMinutes := MaxMinutes;
      }
      remainingSeconds := totalMinutes * 60;
      Refresh(now);
    }

    /** onButton and onButtonA: a press starts or pauses. */
    method OnButtonA(pressed: bool, now: Millis)
      requires Valid()
      modifies this
      ensures Valid()
      ensures !pressed ==> isRunning == old(isRunning) && lastUpdateTime == old(lastUpdateTime)
      ensures pressed ==> (isRunning <==> !old(isRunning) && old(remainingSeconds) > 0)
      ensures totalMinutes == old(totalMinutes) && remainingSeconds == old(remainingSeconds)
    {
      if !pressed {
        return;
      }
      StartStop(now);
    }

    /** onButtonB: a press while stopped adds a minute, up to 120. */
    method OnButtonB(pressed: bool, now: Millis)
      requires Valid()
      modifies this
      ensures Valid()
      ensures pressed && !old(isRunning) ==>
        totalMinutes == if old(totalMinutes) < MaxMinutes then old(totalMinutes) + 1 else MaxMinutes
      ensures pressed && !old(isRunning) ==> remainingSeconds == totalMinutes * 60
      ensures !(pressed && !old(isRunning)) ==>
        totalMinutes == old(totalMinutes) && remainingSeconds == old(remainingSeconds)
      ensures isRunning == old(isRunning) && lastUpdateTime == old(lastUpdateTime)
    {
      if !pressed {
        return;
      }
      if !isRunning {
        AdjustTime(1, now);
      }
    }

    /** onButtonC: a press while stopped removes a minute, down to 1. */
    method OnButtonC(pressed: bool, now: Millis)
      requires Valid()
      modifies this
      ensures Valid()
      ensures pressed && !old(isRunning) ==>
        totalMinutes == if old(totalMinutes) > MinMinutes then old(totalMinutes) - 1 else MinMinutes
      ensures pressed && !old(isRunning) ==> remainingSeconds == totalMinutes * 60
      ensures !(pressed && !old(isRunning)) ==>
        totalMinutes == old(totalMinutes) && remainingSeconds == old(remainingSeconds)
      ensures isRunning == old(isRunning) && lastUpdateTime == old(lastUpdateTime)
    {
      if !pressed {
        return;
      }
      if !isRunning {
        AdjustTime(-1, now);
      }
    }
  }

  /** A stopped timer's B then C, away from the 120-minute cap, returns to
    * the same duration. */
  lemma {:induction false} AddThenRemoveMinute(m: int)
    requires MinMinutes <= m < MaxMinutes
    ensures Constrain(Constrain(m + 1, MinMinutes, MaxMinutes) - 1, MinMinutes, MaxMinutes) == m
  {
  }
}
