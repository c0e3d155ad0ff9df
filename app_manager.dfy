// The application shell: the seven pages in nav-bar order, the nav index
// the joystick moves, the start-up sequence, and the dispatch of the three
// physical keys and the periodic update to the methods of the active page.

module AppManager {
  import opened Text
  import opened PageBase
  import opened PageManager

  /** The pages, in nav-bar order. */
  const PageNames: seq<string> := ["Calendar", "Music", "Alarm", "Memo", "Timer", "Weather", "AI"]
  const PageCount: nat := 7

  /** A page method the shell calls directly on the active page. */
  datatype Call =
    | PageKey(dir: Dir)      // onKey(dir)
    | PageButton             // onButton(true)
    | TimerButtonA           // TimerPage::onButtonA(true)
    | TimerButtonB           // TimerPage::onButtonB(true)
    | TimerButtonC           // TimerPage::onButtonC(true)
    | AlarmEditToggle        // flip AlarmPage::editMode, then redraw the list
    | CalendarTick           // CalendarPage::update
    | TimerTick              // TimerPage::updateTimer
    | AlarmCheck             // AlarmPage::checkAlarms
    | MusicTick              // MusicPage::updatePlaybackProgress
    | WeatherTick            // WeatherPage::update
    | AITick                 // AIAssistantPage::update

  /** The page names are pairwise distinct and fit in the pool. */
  lemma PageNamesDistinct()
    ensures |PageNames| == PageCount <= MaxPages
    ensures forall i, j :: 0 <= i < j < |PageNames| ==> PageNames[i] != PageNames[j]
  {
  }

  /** What key A does: nothing on a release or without an active page. */
  function KeyA(pressed: bool, current: Option<string>): (r: Option<Call>)
    ensures r.Some? ==> pressed && current.Some? && current.value in {"Music", "Alarm", "Memo", "Timer", "Weather", "AI"}
    ensures pressed && current.Some? && current.value in {"Music", "Alarm", "Memo", "Timer", "Weather", "AI"} ==> r.Some?
    ensures pressed && current == Some("Timer") ==> r == Some(TimerButtonA)
  {
    if !pressed || current.None? then None
    else
      var n := current.value;
      if n == "Alarm" then Some(PageKey(Bottom))
      else if n == "Memo" then Some(PageKey(Bottom))
      else if n == "Music" then Some(PageButton)
      else if n == "Timer" then Some(TimerButtonA)
      else if n == "Weather" then Some(PageButton)
      else if n == "AI" then Some(PageButton)
      else None
  }

  /** What key B does; on the Weather page it only logs. */
  function KeyB(pressed: bool, current: Option<string>): (r: Option<Call>)
    ensures r.Some? ==> pressed && current.Some? && current.value in {"Music", "Alarm", "Memo", "Timer", "AI"}
    ensures pressed && current.Some? && current.value in {"Music", "Alarm", "Memo", "Timer", "AI"} ==> r.Some?
    ensures pressed && current == Some("Alarm") ==> r == Some(AlarmEditToggle)
    ensures pressed && current == Some("Timer") ==> r == Some(TimerButtonB)
  {
    if !pressed || current.None? then None
    else
      var n := current.value;
      if n == "Alarm" then Some(AlarmEditToggle)
      else if n == "Timer" then Some(TimerButtonB)
      else if n == "Memo" then Some(PageButton)
      else if n == "Music" then Some(PageKey(Right))
      else if n == "Weather" then None
      else if n == "AI" then Some(PageKey(Left))
      else None
  }

  /** What key C does; on the Weather page it only logs. */
  function KeyC(pressed: bool, current: Option<string>): (r: Option<Call>)
    ensures r.Some? ==> pressed && current.Some? && current.value in {"Music", "Alarm", "Memo", "Timer", "AI"}
    ensures pressed && current.Some? && current.value in {"Music", "Alarm", "Memo", "Timer", "AI"} ==> r.Some?
    ensures pressed && current == Some("Timer") ==> r == Some(TimerButtonC)
  {
    if !pressed || current.None? then None
    else
      var n := current.value;
      if n == "Timer" then Some(TimerButtonC)
      else if n == "Alarm" then Some(PageButton)
      else if n == "Music" then Some(PageKey(Left))
      else if n == "Memo" then Some(PageKey(Top))
      else if n == "Weather" then None
      else if n == "AI" then Some(PageKey(Right))
      else None
  }

  /** On every page where two keys act, they act differently. */
  lemma {:induction false} KeysDistinct(n: string)
    ensures KeyA(true, Some(n)).Some? && KeyB(true, Some(n)).Some? ==> KeyA(true, Some(n)) != KeyB(true, Some(n))
    ensures KeyB(true, Some(n)).Some? && KeyC(true, Some(n)).Some? ==> KeyB(true, Some(n)) != KeyC(true, Some(n))
    ensures KeyA(true, Some(n)).Some? && KeyC(true, Some(n)).Some? ==> KeyA(true, Some(n)) != KeyC(true, Some(n))
  {
  }

  /** The periodic update: the calendar ticks whenever it exists, then the
    * one page-specific update the active page's name selects. */
  function UpdateCalls(calendarExists: bool, current: Option<string>): (r: seq<Call>)
    ensures |r| <= 2
    ensures calendarExists <==> |r| > 0 && r[0] == CalendarTick
    ensures forall i :: 0 < i < |r| ==> r[i] != CalendarTick
    ensures current.None? ==> |r| <= 1
  {
    (if calendarExists then [CalendarTick] else [])
    + (if current.None? then []
       else
         var n := current.value;
         if n == "Timer" then [TimerTick]
         else if n == "Alarm" then [AlarmCheck]
         else if n == "Music" then [MusicTick]
         else if n == "Weather" then [WeatherTick]
         else if n == "AI" then [AITick]
         else [])
  }

  /** The nav index after a LEFT or RIGHT: one step, never past either end. */
  function NavStep(i: int, dir: Dir): (r: int)
    requires 0 <= i < PageCount
    ensures 0 <= r < PageCount
    ensures dir == Left ==> r == if i > 0 then i - 1 else i
    ensures dir == Right ==> r == if i < PageCount - 1 then i + 1 else i
    ensures dir != Left && dir != Right ==> r == i
  {
    match dir
    case Left => if i > 0 then i - 1 else i
    case Right => if i < PageCount - 1 then i + 1 else i
    case _ => i
  }

  /** RIGHT undoes LEFT away from the first page, and LEFT undoes RIGHT away
    * from the last. */
  lemma {:induction false} NavStepInverse(i: int)
    requires 0 <= i < PageCount
    ensures i > 0 ==> NavStep(NavStep(i, Left), Right) == i
    ensures i < PageCount - 1 ==> NavStep(NavStep(i, Right), Left) == i
  {
  }

  class Shell {
    const pm: PageManager
    /** The highlighted nav-bar entry. */
    var navIndex: int
    /** Whether the Calendar page object exists yet (calendarPage != nullptr). */
    var calendarCreated: bool

    ghost predicate Valid()
      reads this, pm, pm.pool, pm.stack, pm.Known
    {
      pm.Valid() && !pm.isBusy && 0 <= navIndex < PageCount
    }

    constructor ()
      ensures Valid() && fresh(pm)
      ensures navIndex == 0 && !calendarCreated
      ensures pm.Names == [] && pm.current == null && pm.trace == [] && pm.stackTop == -1
    {
      pm := new PageManager();
      navIndex := 0;
      calendarCreated := false;
    }

    /** Creates the seven pages and registers them in nav-bar order,
      * stopping at the first one the engine refuses; `count` pages made it. */
    method RegisterPages() returns (ghost count: nat)
      requires Valid()
      modifies this, pm, pm.pool
      ensures Valid()
      ensures calendarCreated && navIndex == old(navIndex)
      ensures count <= PageCount && pm.Names == old(pm.Names) + PageNames[..count]
      ensures count < PageCount ==> |old(pm.Names)| + count == MaxPages || PageNames[count] in old(pm.Names)
      ensures old(pm.Names) == [] ==> pm.Names == PageNames
      ensures fresh(pm.Known - old(pm.Known))
      ensures pm.current == old(pm.current) && pm.trace == old(pm.trace) && pm.stackTop == old(pm.stackTop)
    {
      calendarCreated := true;
      var i := 0;
      while i < PageCount
        invariant i <= PageCount
        invariant pm.Valid() && !pm.isBusy && 0 <= navIndex < PageCount
        invariant pm.Names == old(pm.Names) + PageNames[..i]
        invariant pm.current == old(pm.current) && pm.trace == old(pm.trace) && pm.stackTop == old(pm.stackTop)
        invariant calendarCreated && navIndex == old(navIndex)
        invariant fresh(pm.Known - old(pm.Known))
      {
        var ok := CreateAndRegister(PageNames[i]);
        if !ok {
          if |pm.Names| < MaxPages {
            assert PageNames[i] !in PageNames[..i] by { PageNamesDistinct(); }
          }
          return i;
        }
        assert PageNames[..i + 1] == PageNames[..i] + [PageNames[i]];
        i := i + 1;
      }
      assert PageNames[..i] == PageNames;
      return i;
    }

    /** `new XPage()` followed by Register under `name`. */
    method CreateAndRegister(name: string) returns (ok: bool)
      requires Valid()
      modifies pm, pm.pool
      ensures Valid()
      ensures ok <==> |old(pm.Names)| < MaxPages && name !in old(pm.Names)
      ensures pm.Names == old(pm.Names) + (if ok then [name] else [])
      ensures fresh(pm.Known - old(pm.Known))
      ensures pm.current == old(pm.current) && pm.trace == old(pm.trace) && pm.stackTop == old(pm.stackTop)
    {
      var page := new Page();
      ok := pm.Register(page, Some(name));
    }

    /** Start-up: register the pages, then push the Calendar page. */
    method Init()
      requires Valid()
      modifies this, pm, pm.pool, pm.stack, pm.Known
      ensures Valid()
      ensures old(pm.Names) == [] && old(pm.current) == null && old(pm.trace) == [] && old(pm.stackTop) == -1 ==>
        && pm.Names == PageNames
        && pm.current != null && pm.current.name == Some("Calendar") && pm.current.state == Activity
        && pm.trace == SwitchHooks(null, pm.current, true)
        && pm.StackSeq() == []
    {
      ghost var count := RegisterPages();
      var ok := pm.Push("Calendar");
      if old(pm.Names) == [] {
        assert "Calendar" in pm.Names by { assert pm.Names[0] == "Calendar"; }
      }
    }

    /** Highlights entry `index` and replaces the active page with it;
      * ignored outside the table and for the entry already highlighted.
      * The stack is never touched. */
    method SwitchToPage(index: int)
      requires Valid()
      modifies this, pm, pm.Known
      ensures Valid()
      ensures navIndex == if 0 <= index < PageCount then index else old(navIndex)
      ensures pm.StackSeq() == old(pm.StackSeq())
      ensures pm.Names == old(pm.Names) && calendarCreated == old(calendarCreated)
      ensures !(0 <= index < PageCount && index != old(navIndex) && PageNames[index] in old(pm.Names)) ==>
        pm.current == old(pm.current) && pm.trace == old(pm.trace)
      ensures 0 <= index < PageCount && index != old(navIndex) && PageNames[index] in old(pm.Names) ==>
        var target := old(pm.pool[IndexOf(pm.Names, PageNames[index])]);
        && pm.current == target && target.name == Some(PageNames[index]) && target.state == Activity
        && pm.trace == old(pm.trace) + SwitchHooks(old(pm.current), target, old(target.state) == Idle)
    {
      if index < 0 || index >= PageCount {
        return;
      }
      if index == navIndex {
        return;
      }
      navIndex := index;
      var ok := pm.Replace(PageNames[index]);
    }

    /** LEFT and RIGHT move along the nav bar and replace the active page
      * with the newly highlighted one; at either end they do nothing, and
      * the key does not reach the page. Every other direction goes to the
      * active page through the engine's router. */
    method HandleInput(dir: Dir)
      requires Valid()
      modifies this, pm, pm.Known
      ensures Valid()
      ensures navIndex == NavStep(old(navIndex), dir)
      ensures pm.StackSeq() == old(pm.StackSeq()) && pm.Names == old(pm.Names)
      ensures (dir == Left || dir == Right) && !(NavStep(old(navIndex), dir) != old(navIndex)
                                                 && PageNames[NavStep(old(navIndex), dir)] in old(pm.Names)) ==>
        pm.current == old(pm.current) && pm.trace == old(pm.trace)
      ensures (dir == Left || dir == Right) && NavStep(old(navIndex), dir) != old(navIndex)
              && PageNames[NavStep(old(navIndex), dir)] in old(pm.Names) ==>
        var target := old(pm.pool[IndexOf(pm.Names, PageNames[NavStep(navIndex, dir)])]);
        && pm.current == target && target.name == Some(PageNames[NavStep(old(navIndex), dir)])
        && target.state == Activity
        && pm.trace == old(pm.trace) + SwitchHooks(old(pm.current), target, old(target.state) == Idle)
      ensures dir != Left && dir != Right ==>
        && pm.current == old(pm.current)
        && pm.trace == old(pm.trace) + (if pm.current != null then [KeyTo(pm.current, dir)] else [])
    {
      match dir
      case Left =>
        if navIndex > 0 {
          SwitchToPage(navIndex - 1);
        }
      case Right =>
        if navIndex < PageCount - 1 {
          SwitchToPage(navIndex + 1);
        }
      case _ =>
        pm.HandleInput(dir);
    }

    /** Encoder steps go to the active page unchanged. */
    method HandleEncoder(diff: int)
      requires Valid()
      modifies pm
      ensures Valid()
      ensures pm.current == old(pm.current)
      ensures pm.trace == old(pm.trace) + (if pm.current != null then [EncoderTo(pm.current, diff)] else [])
    {
      pm.HandleEncoder(diff);
    }

    /** Button events go to the active page unchanged. */
    method HandleButton(pressed: bool)
      requires Valid()
      modifies pm
      ensures Valid()
      ensures pm.current == old(pm.current)
      ensures pm.trace == old(pm.trace) + (if pm.current != null then [ButtonTo(pm.current, pressed)] else [])
    {
      pm.HandleButton(pressed);
    }
  }
}
