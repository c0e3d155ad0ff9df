// PageBase: the record every page carries, the lifecycle states it moves
// through, and the directions input events carry.

module PageBase {
  import opened Text

  /** The lifecycle states, in the order a page normally visits them. */
  datatype State = Idle | Load | WillAppear | DidAppear | Activity | WillDisappear | DidDisappear | Unload

  const StateOrder: seq<State> :=
    [Idle, Load, WillAppear, DidAppear, Activity, WillDisappear, DidDisappear, Unload]

  /** The numeric value of a state in the enumeration. */
  function Ordinal(s: State): (n: nat)
    ensures n < |StateOrder| && StateOrder[n] == s
  {
    match s
    case Idle => 0
    case Load => 1
    case WillAppear => 2
    case DidAppear => 3
    case Activity => 4
    case WillDisappear => 5
    case DidDisappear => 6
    case Unload => 7
  }

  /** Distinct states have distinct ordinals. */
  lemma OrdinalInjective(s: State, t: State)
    requires Ordinal(s) == Ordinal(t)
    ensures s == t
  {
  }

  /** The direction an input event carries (lv_dir_t). */
  datatype Dir = DirNone | Left | Right | Top | Bottom

  /** Enter/exit animation settings: type and duration in ms. */
  datatype AnimAttr = AnimAttr(kind: nat, time: nat)

  /** The overridable hooks, in the order the engine calls them. */
  datatype Hook =
    | OnViewLoad | OnViewDidLoad
    | OnViewWillAppear | OnViewDidAppear
    | OnViewWillDisappear | OnViewDidDisappear
    | OnViewUnload | OnViewDidUnload

  /** The lifecycle as a state machine: the state a page is left in when
    * hook `h` runs while the page is in state `s`, or None when `h` may not
    * run in `s`. DidAppear is passed through on the way to Activity, and
    * Unload on the way back to Idle. */
  function Next(s: State, h: Hook): Option<State>
  {
    match h
    case OnViewLoad => if s == Idle then Some(Load) else None
    case OnViewDidLoad => if s == Load then Some(Load) else None
    case OnViewWillAppear =>
      if s == Load || s == DidDisappear || s == Activity then Some(WillAppear) else None
    case OnViewDidAppear => if s == WillAppear then Some(Activity) else None
    case OnViewWillDisappear => if s == Activity then Some(WillDisappear) else None
    case OnViewDidDisappear => if s == WillDisappear then Some(DidDisappear) else None
    case OnViewUnload => if s == Activity then Some(Unload) else None
    case OnViewDidUnload => if s == Unload then Some(Idle) else None
  }

  /** A page as the engine sees it. `hasRoot` stands for a non-null root
    * widget, `hidden` for its hidden flag, `hasManager` for a non-null
    * back-pointer to the engine. */
  class Page {
    var name: Option<string>
    var id: nat
    var hasManager: bool
    var hasRoot: bool
    var hidden: bool
    var state: State
    /** The page's own animation record: entering party, playing, settings. */
    var animEnter: bool
    var animBusy: bool
    var anim: AnimAttr

    /** A fresh page: unnamed, unregistered, without a root, Idle, its
      * animation idle with type 0 and 500 ms. */
    constructor ()
      ensures name == None && id == 0 && !hasManager
      ensures !hasRoot && !hidden && state == Idle
      ensures !animEnter && !animBusy && anim == AnimAttr(0, 500)
    {
      name := None;
      id := 0;
      hasManager := false;
      hasRoot := false;
      hidden := false;
      state := Idle;
      animEnter := false;
      animBusy := false;
      anim := AnimAttr(0, 500);
    }
  }
}
