// The main loop's input filter: the five joystick contacts and the three
// keys are sampled once per poll, at most one press event is raised per
// poll (the first released-to-pressed edge in a fixed priority order), a
// 200 ms window after an event ignores the device, and the shell's periodic
// update runs once more than a second has passed. Pin reads and millis()
// are parameters.

module MainLoop {
  import opened Text
  import opened Clock
  import opened PageBase

  const InputDebounce: nat := 200
  const UpdateInterval: nat := 1000

  /** Joystick contacts in priority order. */
  const JoyUp: nat := 0
  const JoyDown: nat := 1
  const JoyLeft: nat := 2
  const JoyRight: nat := 3
  const JoyPress: nat := 4
  const JoyCount: nat := 5

  /** Keys in priority order. */
  const KeyCount: nat := 3

  /** Contact `j` went from released to pressed. */
  predicate Rising(last: seq<bool>, cur: seq<bool>, j: int)
  {
    0 <= j < |cur| && j < |last| && !last[j] && cur[j]
  }

  /** The first contact, in index order, that went from released to pressed. */
  function FirstEdge(last: seq<bool>, cur: seq<bool>): (r: Option<nat>)
    requires |last| == |cur|
    ensures r.Some? ==> Rising(last, cur, r.value)
    ensures r.Some? ==> forall j :: 0 <= j < r.value ==> !Rising(last, cur, j)
    ensures r.None? ==> forall j :: 0 <= j < |cur| ==> !Rising(last, cur, j)
    decreases |cur|
  {
    if |cur| == 0 then None
    else if !last[0] && cur[0] then Some(0)
    else
      match FirstEdge(last[1..], cur[1..])
      case None =>
        assert forall j :: 1 <= j < |cur| ==> Rising(last, cur, j) == Rising(last[1..], cur[1..], j - 1);
        None
      case Some(k) =>
        assert forall j :: 1 <= j < |cur| ==> Rising(last, cur, j) == Rising(last[1..], cur[1..], j - 1);
        Some(k + 1)
  }

  /** A contact that stays pressed raises no second event: once the last
    * state has caught up with the reading, the same reading fires nothing. */
  lemma {:induction false} HeldDoesNotRepeat(s: seq<bool>)
    ensures FirstEdge(s, s).None?
  {
    assert forall j :: 0 <= j < |s| ==> !Rising(s, s, j);
  }

  /** The direction a joystick event hands to the shell: UP and DOWN are
    * consumed, PRESS is sent as "no direction". */
  function JoystickForward(i: nat): (r: Option<Dir>)
    requires i < JoyCount
    ensures r.None? <==> i == JoyUp || i == JoyDown
    ensures i == JoyLeft ==> r == Some(Left)
    ensures i == JoyRight ==> r == Some(Right)
    ensures i == JoyPress ==> r == Some(DirNone)
  {
    if i == JoyLeft then Some(Left)
    else if i == JoyRight then Some(Right)
    else if i == JoyPress then Some(DirNone)
    else None
  }

  /** Copies `src` over `dst`. */
  method CopyInto(dst: array<bool>, src: seq<bool>)
    requires dst.Length == |src|
    modifies dst
    ensures dst[..] == src
  {
    for i := 0 to |src|
      invariant dst[..i] == src[..i]
    {
      dst[i] := src[i];
      assert dst[..i + 1] == dst[..i] + [dst[i]];
      assert src[..i + 1] == src[..i] + [src[i]];
    }
    assert dst[..] == dst[..|src|];
    assert src == src[..|src|];
  }

  class InputPoller {
    /** lastJoystickState and lastKeyState. */
    const lastJoystick: array<bool>
    const lastKey: array<bool>
    var lastJoystickTime: Millis
    var lastKeyTime: Millis
    /** The static lastUpdate of loop(). */
    var lastUpdate: Millis

    ghost predicate Valid()
      reads this
    {
      lastJoystick.Length == JoyCount && lastKey.Length == KeyCount && lastJoystick != lastKey
    }

    constructor ()
      ensures Valid()
      ensures lastJoystick[..] == [false, false, false, false, false]
      ensures lastKey[..] == [false, false, false]
      ensures lastJoystickTime == 0 && lastKeyTime == 0 && lastUpdate == 0
    {
      lastJoystick := new bool[JoyCount](_ => false);
      lastKey := new bool[KeyCount](_ => false);
      lastJoystickTime := 0;
      lastKeyTime := 0;
      lastUpdate := 0;
    }

    /** handleJoystickInput: within the debounce window nothing happens;
      * otherwise the first rising contact in the order UP, DOWN, LEFT,
      * RIGHT, PRESS fires, its time is recorded, and the last state becomes
      * the reading whether or not anything fired. */
    method PollJoystick(now: Millis, reading: seq<bool>) returns (fired: Option<nat>, forward: Option<Dir>)
      requires Valid() && |reading| == JoyCount
      modifies this, lastJoystick
      ensures Valid()
      ensures Elapsed(now, old(lastJoystickTime)) < InputDebounce ==>
        && fired.None? && forward.None?
        && lastJoystick[..] == old(lastJoystick[..]) && lastJoystickTime == old(lastJoystickTime)
      ensures Elapsed(now, old(lastJoystickTime)) >= InputDebounce ==>
        && fired == FirstEdge(old(lastJoystick[..]), reading)
        && forward == (if fired.Some? then JoystickForward(fired.value) else None)
        && lastJoystick[..] == reading
        && lastJoystickTime == (if fired.Some? then now else old(lastJoystickTime))
      ensures lastKey[..] == old(lastKey[..]) && lastKeyTime == old(lastKeyTime) && lastUpdate == old(lastUpdate)
    {
      if Elapsed(now, lastJoystickTime) < InputDebounce {
        return None, None;
      }
      ghost var last := lastJoystick[..];
      fired, forward := None, None;
      if !lastJoystick[JoyUp] && reading[JoyUp] {
        fired := Some(JoyUp);
        lastJoystickTime := now;
      } else if !lastJoystick[JoyDown] && reading[JoyDown] {
        fired := Some(JoyDown);
        lastJoystickTime := now;
      } else if !lastJoystick[JoyLeft] && reading[JoyLeft] {
        fired, forward := Some(JoyLeft), Some(Left);
        lastJoystickTime := now;
      } else if !lastJoystick[JoyRight] && reading[JoyRight] {
        fired, forward := Some(JoyRight), Some(Right);
        lastJoystickTime := now;
      } else if !lastJoystick[JoyPress] && reading[JoyPress] {
        fired, forward := Some(JoyPress), Some(DirNone);
        lastJoystickTime := now;
      }
      FirstEdgeIsChain(last, reading, fired);
      CopyInto(lastJoystick, reading);
    }

    /** handleKeyInput: the same filter over keys A, B, C; the event names
      * the key whose handler runs with `pressed` set. */
    method PollKeys(now: Millis, reading: seq<bool>) returns (fired: Option<nat>)
      requires Valid() && |reading| == KeyCount
      modifies this, lastKey
      ensures Valid()
      ensures Elapsed(now, old(lastKeyTime)) < InputDebounce ==>
        fired.None? && lastKey[..] == old(lastKey[..]) && lastKeyTime == old(lastKeyTime)
      ensures Elapsed(now, old(lastKeyTime)) >= InputDebounce ==>
        && fired == FirstEdge(old(lastKey[..]), reading)
        && lastKey[..] == reading
        && lastKeyTime == (if fired.Some? then now else old(lastKeyTime))
      ensures lastJoystick[..] == old(lastJoystick[..]) && lastJoystickTime == old(lastJoystickTime)
      ensures lastUpdate == old(lastUpdate)
    {
      if Elapsed(now, lastKeyTime) < InputDebounce {
        return None;
      }
      ghost var last := lastKey[..];
      fired := None;
      if !lastKey[0] && reading[0] {
        fired := Some(0);
        lastKeyTime := now;
      } else if !lastKey[1] && reading[1] {
        fired := Some(1);
        lastKeyTime := now;
      } else if !lastKey[2] && reading[2] {
        fired := Some(2);
        lastKeyTime := now;
      }
      FirstEdgeIsChain(last, reading, fired);
      CopyInto(lastKey, reading);
    }

    /** The update throttle of loop(): due once more than a second has
      * passed since the last run, which then becomes now. */
    method UpdateDue(now: Millis) returns (due: bool)
      requires Valid()
      modifies this
      ensures Valid()
      ensures due <==> Elapsed(now, old(lastUpdate)) > UpdateInterval
      ensures lastUpdate == if due then now else old(lastUpdate)
      ensures lastJoystickTime == old(lastJoystickTime) && lastKeyTime == old(lastKeyTime)
    {
      due := Elapsed(now, lastUpdate) > UpdateInterval;
      if due {
        lastUpdate := now;
      }
    }
  }

  /** An if-else chain over the contacts in index order computes FirstEdge. */
  lemma {:induction false} FirstEdgeIsChain(last: seq<bool>, cur: seq<bool>, fired: Option<nat>)
    requires |last| == |cur|
    requires fired.Some? ==> Rising(last, cur, fired.value)
    requires fired.Some? ==> forall j :: 0 <= j < fired.value ==> !Rising(last, cur, j)
    requires fired.None? ==> forall j :: 0 <= j < |cur| ==> !Rising(last, cur, j)
    ensures fired == FirstEdge(last, cur)
  {
    var r := FirstEdge(last, cur);
    // mention both candidate positions so each side's minimality applies to the other
    var a := if fired.Some? then fired.value else 0;
    var b := if r.Some? then r.value else 0;
    var _ := Rising(last, cur, a) && Rising(last, cur, b);
  }
}
