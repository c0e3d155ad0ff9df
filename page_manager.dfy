// The page engine: a registry of at most ten named pages, a navigation
// stack of at most ten entries, the switch that drives the lifecycle hooks
// of the outgoing and incoming pages, and the router that hands input to
// the active page. Every hook call and every delivered input is recorded,
// in order, in `trace`.

module PageManager {
  import opened Text
  import opened PageBase

  const MaxPages: nat := 10
  const MaxStackSize: nat := 10

  /** LOAD_ANIM_OVER_LEFT, the default global animation type. */
  const AnimOverLeft: nat := 1

  /** What the engine does to a page: call one of its hooks, or hand it an
    * input event. */
  datatype Event =
    | Hooked(page: Page, hook: Hook)
    | KeyTo(page: Page, dir: Dir)
    | EncoderTo(page: Page, diff: int)
    | ButtonTo(page: Page, pressed: bool)

  /** The effect of one event on the lifecycle of page `q` in state `o`:
    * hooks follow `Next`, and input may only reach a page in Activity. */
  function Step(o: Option<State>, e: Event, q: Page): Option<State>
  {
    if o.None? || e.page != q then o
    else if e.Hooked? then Next(o.value, e.hook)
    else if o.value == Activity then o
    else None
  }

  /** Replays the events of `t` that concern `q`, from state `o`; None once
    * one of them happens in a state that does not allow it. */
  function Run(o: Option<State>, t: seq<Event>, q: Page): Option<State>
    decreases |t|
  {
    if t == [] then o else Run(Step(o, t[0], q), t[1..], q)
  }

  lemma {:induction false} RunAppend(o: Option<State>, a: seq<Event>, b: seq<Event>, q: Page)
    ensures Run(o, a + b, q) == Run(Run(o, a, q), b, q)
    decreases |a|
  {
    if a == [] {
      assert a + b == b;
    } else {
      assert (a + b)[0] == a[0];
      assert (a + b)[1..] == a[1..] + b;
      RunAppend(Step(o, a[0], q), a[1..], b, q);
    }
  }

  /** Events about other pages leave `q` where it was. */
  lemma {:induction false} RunOther(o: Option<State>, t: seq<Event>, q: Page)
    requires forall i :: 0 <= i < |t| ==> t[i].page != q
    ensures Run(o, t, q) == o
  {
    if t != [] {
      RunOther(o, t[1..], q);
    }
  }

  lemma RunOne(o: Option<State>, e: Event, q: Page)
    ensures Run(o, [e], q) == Step(o, e, q)
  {
    assert [e][1..] == [];
  }

  lemma RunTwo(o: Option<State>, e1: Event, e2: Event, q: Page)
    ensures Run(o, [e1, e2], q) == Step(Step(o, e1, q), e2, q)
  {
    assert [e1, e2][1..] == [e2];
    RunOne(Step(o, e1, q), e2, q);
  }

  /** The hooks one switch calls, in order, from `prev` to `next`; `load`
    * says whether `next` was Idle and is loaded first. */
  function WillLeave(prev: Page?, next: Page): seq<Event>
  {
    if prev != null && prev != next then [Hooked(prev, OnViewWillDisappear)] else []
  }

  function LoadHooks(next: Page, load: bool): seq<Event>
  {
    if load then [Hooked(next, OnViewLoad), Hooked(next, OnViewDidLoad)] else []
  }

  function DidLeave(prev: Page?, next: Page): seq<Event>
  {
    if prev != null && prev != next then [Hooked(prev, OnViewDidDisappear)] else []
  }

  function SwitchHooks(prev: Page?, next: Page, load: bool): seq<Event>
  {
    WillLeave(prev, next) + LoadHooks(next, load)
    + [Hooked(next, OnViewWillAppear)] + [Hooked(next, OnViewDidAppear)]
    + DidLeave(prev, next)
  }

  /** The hooks that unloading `p` calls. */
  function UnloadHooks(p: Page): seq<Event>
  {
    [Hooked(p, OnViewUnload), Hooked(p, OnViewDidUnload)]
  }

  /** A switch calls every hook in a state that allows it: the incoming page
    * ends in Activity, the outgoing one in DidDisappear, and every other
    * page stays where it was. */
  lemma {:induction false} SwitchLegal(prev: Page?, next: Page, snext: State, q: Page, sq: State)
    requires snext == Idle || snext == DidDisappear || snext == Activity
    requires q == next ==> sq == snext
    requires prev != null && prev != next && q == prev ==> sq == Activity
    ensures Run(Some(sq), SwitchHooks(prev, next, snext == Idle), q)
         == Some(if q == next then Activity
                 else if prev != null && q == prev then DidDisappear
                 else sq)
  {
    var leaving := prev != null && prev != next;
    var w := if leaving then [Hooked(prev, OnViewWillDisappear)] else [];
    var l := if snext == Idle then [Hooked(next, OnViewLoad), Hooked(next, OnViewDidLoad)] else [];
    var a := [Hooked(next, OnViewWillAppear), Hooked(next, OnViewDidAppear)];
    var d := if leaving then [Hooked(prev, OnViewDidDisappear)] else [];
    assert SwitchHooks(prev, next, snext == Idle) == w + l + a + d;
    RunAppend(Some(sq), w + l + a, d, q);
    RunAppend(Some(sq), w + l, a, q);
    RunAppend(Some(sq), w, l, q);
    var s1 := Run(Some(sq), w, q);
    if leaving { RunOne(Some(sq), w[0], q); } else { assert w == []; }
    assert s1 == (if leaving && q == prev then Some(WillDisappear) else Some(sq));
    var s2 := Run(s1, l, q);
    if snext == Idle { RunTwo(s1, l[0], l[1], q); } else { assert l == []; }
    assert s2 == (if q == next && snext == Idle then Some(Load) else s1);
    var s3 := Run(s2, a, q);
    RunTwo(s2, a[0], a[1], q);
    assert s3 == (if q == next then Some(Activity) else s2);
    if leaving { RunOne(s3, d[0], q); } else { assert d == []; }
  }

  /** Unloading the active page runs its unload hooks legally and leaves it Idle. */
  lemma {:induction false} UnloadLegal(p: Page, q: Page, sq: State)
    requires q == p ==> sq == Activity
    ensures Run(Some(sq), UnloadHooks(p), q) == Some(if q == p then Idle else sq)
  {
    RunTwo(Some(sq), Hooked(p, OnViewUnload), Hooked(p, OnViewDidUnload), q);
  }

  /** Index of the first `n` in `ns`, or -1. */
  function IndexOf(ns: seq<string>, n: string): (k: int)
    ensures -1 <= k < |ns|
    ensures k == -1 <==> n !in ns
    ensures k >= 0 ==> ns[k] == n && n !in ns[..k]
  {
    if ns == [] then -1
    else if ns[|ns| - 1] == n && n !in ns[..|ns| - 1] then |ns| - 1
    else
      var k := IndexOf(ns[..|ns| - 1], n);
      assert k >= 0 ==> ns[..|ns| - 1][..k] == ns[..k];
      k
  }

  /** Moves the entries after slot `i` of the first `n` down one slot. */
  method ShiftDown(a: array<Page?>, i: nat, n: nat)
    requires i < n <= a.Length
    modifies a
    ensures forall k :: 0 <= k < i ==> a[k] == old(a[k])
    ensures forall k :: i <= k < n - 1 ==> a[k] == old(a[k + 1])
    ensures forall k :: n - 1 <= k < a.Length ==> a[k] == old(a[k])
  {
    var j := i;
    while j < n - 1
      invariant i <= j <= n - 1
      invariant forall k :: 0 <= k < i ==> a[k] == old(a[k])
      invariant forall k :: i <= k < j ==> a[k] == old(a[k + 1])
      invariant forall k :: j <= k < a.Length ==> a[k] == old(a[k])
    {
      a[j] := a[j + 1];
      j := j + 1;
    }
  }

  class PageManager {
    /** _PagePool: registered pages in registration order, then nulls. */
    const pool: array<Page?>
    var poolSize: nat
    /** _PageStack: the navigation stack, bottom first; -1 means empty. */
    const stack: array<Page?>
    var stackTop: int
    var prev: Page?
    var current: Page?
    var isSwitchReq: bool
    var isBusy: bool
    var isEntering: bool
    var globalAnim: AnimAttr
    /** Hook calls and delivered input, oldest first. */
    var trace: seq<Event>

    /** Every page ever registered (deleted ones included: a stale stack entry
      * may still point at one). */
    ghost var Known: set<Page>
    /** The names of the pooled pages, in pool order. */
    ghost var Names: seq<string>

    ghost predicate PoolValid()
      reads this, pool, Known
    {
      && pool.Length == MaxPages
      && poolSize <= MaxPages
      && |Names| == poolSize
      && (forall i :: 0 <= i < poolSize ==>
            pool[i] != null && pool[i] in Known && pool[i].name == Some(Names[i]) && pool[i].hasManager)
      && (forall i :: poolSize <= i < MaxPages ==> pool[i] == null)
      && (forall i, j :: 0 <= i < j < poolSize ==> Names[i] != Names[j])
    }

    ghost predicate StackValid()
      reads this, stack
    {
      && stack.Length == MaxStackSize
      && -1 <= stackTop < MaxStackSize
      && (forall i :: 0 <= i <= stackTop ==> stack[i] != null && stack[i] in Known)
      && (forall i :: stackTop < i < MaxStackSize ==> stack[i] == null)
    }

    /** Between two engine calls the active page is in Activity, every other
      * page rests in Idle or DidDisappear, a page has a root exactly when it
      * is not Idle, and the recorded trace is a legal run of every page's
      * lifecycle ending in its current state. */
    ghost predicate LifecycleValid()
      reads this, Known
    {
      && (current != null ==> current in Known)
      && (prev != null ==> prev in Known)
      && (forall i :: 0 <= i < |trace| ==> trace[i].page in Known)
      && (forall q :: q in Known ==> PageOk(q))
    }

    ghost predicate PageOk(q: Page)
      reads this, q
    {
      && (if q == current then q.state == Activity && !q.hidden
          else q.state == Idle || q.state == DidDisappear)
      && (q.hasRoot <==> q.state != Idle)
      && (q.state == DidDisappear ==> q.hidden)
      && Run(Some(Idle), trace, q) == Some(q.state)
    }

    ghost predicate Valid()
      reads this, pool, stack, Known
    {
      pool != stack && PoolValid() && StackValid() && LifecycleValid()
    }

    /** The stack from bottom to top. */
    ghost function StackSeq(): seq<Page?>
      reads this, stack
      requires StackValid()
    {
      stack[..stackTop + 1]
    }

    /** The pooled pages in pool order. */
    ghost function PoolSeq(): seq<Page?>
      reads this, pool, Known
      requires PoolValid()
    {
      pool[..poolSize]
    }

    constructor ()
      ensures Valid()
      ensures fresh(pool) && fresh(stack)
      ensures poolSize == 0 && Names == [] && stackTop == -1
      ensures current == null && prev == null && trace == [] && Known == {}
      ensures !isSwitchReq && !isBusy && !isEntering
      ensures globalAnim == AnimAttr(AnimOverLeft, 500)
    {
      pool := new Page?[MaxPages](_ => null);
      poolSize := 0;
      stack := new Page?[MaxStackSize](_ => null);
      stackTop := -1;
      prev := null;
      current := null;
      isSwitchReq := false;
      isBusy := false;
      isEntering := false;
      globalAnim := AnimAttr(AnimOverLeft, 500);
      trace := [];
      Known := {};
      Names := [];
    }

    /** The slot of the pooled page registered under `name`, or -1: the
      * search both FindPageInPool and Unregister perform. */
    method PoolIndex(name: string) returns (k: int)
      requires Valid()
      ensures k == IndexOf(Names, name)
      ensures k >= 0 ==> pool[k] != null && pool[k].name == Some(name)
    {
      var i := 0;
      while i < poolSize
        invariant 0 <= i <= poolSize
        invariant name !in Names[..i]
      {
        if pool[i] != null && pool[i].name == Some(name) {
          assert Names[i] == name;
          return i;
        }
        assert Names[..i + 1] == Names[..i] + [Names[i]];
        i := i + 1;
      }
      assert Names[..i] == Names;
      return -1;
    }

    /** FindPageInPool: the pooled page registered under `name`, if any. */
    method FindPageInPool(name: string) returns (p: Page?)
      requires Valid()
      ensures p == null <==> name !in Names
      ensures p != null ==> p == pool[IndexOf(Names, name)] && p.name == Some(name)
    {
      var k := PoolIndex(name);
      p := if k < 0 then null else pool[k];
    }

    /** Adds `page` under `name` at the end of the pool; refuses a missing
      * page or name, a full pool, and a name already taken. */
    method Register(page: Page?, name: Option<string>) returns (ok: bool)
      requires Valid()
      requires page != null ==> page !in Known && page.state == Idle && !page.hasRoot
      modifies this, pool, page
      ensures Valid()
      ensures ok <==> page != null && name.Some? && old(poolSize) < MaxPages && name.value !in old(Names)
      ensures ok ==> && PoolSeq() == old(PoolSeq()) + [page]
                     && Names == old(Names) + [name.value]
                     && Known == old(Known) + {page}
                     && page.name == name && page.id == old(poolSize) && page.hasManager
                     && page.state == Idle
      ensures !ok ==> && PoolSeq() == old(PoolSeq()) && Names == old(Names) && Known == old(Known)
                      && (page != null ==> unchanged(page))
      ensures stackTop == old(stackTop) && current == old(current) && prev == old(prev)
      ensures trace == old(trace) && isBusy == old(isBusy) && globalAnim == old(globalAnim)
    {
      if page == null || name.None? {
        return false;
      }
      if poolSize >= MaxPages {
        return false;
      }
      var found := FindPageInPool(name.value);
      if found != null {
        return false;
      }
      Append(page, name.value);
      return true;
    }

    /** The stores of a successful Register: `page` takes slot `poolSize`
      * under name `n`. */
    method Append(page: Page, n: string)
      requires Valid()
      requires page !in Known && page.state == Idle && !page.hasRoot
      requires poolSize < MaxPages && n !in Names
      modifies this, pool, page
      ensures Valid()
      ensures PoolSeq() == old(PoolSeq()) + [page]
      ensures Names == old(Names) + [n] && Known == old(Known) + {page}
      ensures page.name == Some(n) && page.id == old(poolSize) && page.hasManager && page.state == Idle
      ensures stackTop == old(stackTop) && current == old(current) && prev == old(prev)
      ensures trace == old(trace) && isBusy == old(isBusy) && globalAnim == old(globalAnim)
    {
      page.name := Some(n);
      page.hasManager := true;
      page.id := poolSize;
      pool[poolSize] := page;
      poolSize := poolSize + 1;
      Names := Names + [n];
      Known := Known + {page};
      PoolAfterAdd(page);
      KeepStack();
      LifeAfterAdd(page);
      assert pool[..poolSize] == old(pool[..poolSize]) + [page];
    }

    /** StateLoadExecute: marks `p` Load, creates its root if it has none,
      * and calls its load hooks. */
    method LoadExecute(p: Page) returns (fired: seq<Event>)
      modifies p
      ensures fired == [Hooked(p, OnViewLoad), Hooked(p, OnViewDidLoad)]
      ensures p.state == Load && p.hasRoot
      ensures p.hidden == (old(p.hasRoot) && old(p.hidden))
      ensures p.name == old(p.name) && p.id == old(p.id) && p.hasManager == old(p.hasManager)
    {
      p.state := Load;
      if !p.hasRoot {
        p.hasRoot := true;
        p.hidden := false;
      }
      fired := [Hooked(p, OnViewLoad), Hooked(p, OnViewDidLoad)];
    }

    /** StateWillAppearExecute: marks `p` WillAppear, calls its hook, shows its root. */
    method WillAppearExecute(p: Page) returns (fired: seq<Event>)
      modifies p
      ensures fired == [Hooked(p, OnViewWillAppear)]
      ensures p.state == WillAppear && p.hasRoot == old(p.hasRoot)
      ensures p.hidden == (old(p.hidden) && !p.hasRoot)
      ensures p.name == old(p.name) && p.id == old(p.id) && p.hasManager == old(p.hasManager)
    {
      p.state := WillAppear;
      fired := [Hooked(p, OnViewWillAppear)];
      if p.hasRoot {
        p.hidden := false;
      }
    }

    /** StateDidAppearExecute: passes `p` through DidAppear into Activity. */
    method DidAppearExecute(p: Page) returns (fired: seq<Event>)
      modifies p
      ensures fired == [Hooked(p, OnViewDidAppear)]
      ensures p.state == Activity && p.hasRoot == old(p.hasRoot) && p.hidden == old(p.hidden)
      ensures p.name == old(p.name) && p.id == old(p.id) && p.hasManager == old(p.hasManager)
    {
      p.state := DidAppear;
      fired := [Hooked(p, OnViewDidAppear)];
      p.state := Activity;
    }

    /** StateWillDisappearExecute: marks `p` WillDisappear and calls its hook. */
    method WillDisappearExecute(p: Page) returns (fired: seq<Event>)
      modifies p
      ensures fired == [Hooked(p, OnViewWillDisappear)]
      ensures p.state == WillDisappear && p.hasRoot == old(p.hasRoot) && p.hidden == old(p.hidden)
      ensures p.name == old(p.name) && p.id == old(p.id) && p.hasManager == old(p.hasManager)
    {
      p.state := WillDisappear;
      fired := [Hooked(p, OnViewWillDisappear)];
    }

    /** StateDidDisappearExecute: marks `p` DidDisappear, calls its hook, hides its root. */
    method DidDisappearExecute(p: Page) returns (fired: seq<Event>)
      modifies p
      ensures fired == [Hooked(p, OnViewDidDisappear)]
      ensures p.state == DidDisappear && p.hasRoot == old(p.hasRoot)
      ensures p.hidden == (old(p.hidden) || p.hasRoot)
      ensures p.name == old(p.name) && p.id == old(p.id) && p.hasManager == old(p.hasManager)
    {
      p.state := DidDisappear;
      fired := [Hooked(p, OnViewDidDisappear)];
      if p.hasRoot {
        p.hidden := true;
      }
    }

    /** StateUnloadExecute: runs the unload hooks, deletes the root, back to Idle. */
    method UnloadExecute(p: Page) returns (fired: seq<Event>)
      modifies p
      ensures fired == UnloadHooks(p)
      ensures p.state == Idle && !p.hasRoot && p.hidden == old(p.hidden)
      ensures p.name == old(p.name) && p.id == old(p.id) && p.hasManager == old(p.hasManager)
    {
      p.state := Unload;
      fired := [Hooked(p, OnViewUnload)];
      p.hasRoot := false;
      fired := fired + [Hooked(p, OnViewDidUnload)];
      p.state := Idle;
    }

    /** Makes `page` the active page: the outgoing page is told it will
      * disappear, the incoming one is loaded if Idle and brought to
      * Activity, then the outgoing one is told it did disappear. Refused
      * for a null page and while an animation is busy. */
    method SwitchTo(page: Page?, isEnter: bool) returns (ok: bool)
      requires Valid()
      requires page != null ==> page in Known
      modifies this, page, current
      ensures Valid()
      ensures ok <==> page != null && !old(isBusy)
      ensures ok ==> && page != null && current == page && prev == old(current) && isEntering == isEnter
                     && trace == old(trace) + SwitchHooks(old(current), page, old(page.state) == Idle)
      ensures !ok ==> && current == old(current) && prev == old(prev) && isEntering == old(isEntering)
                      && trace == old(trace)
      ensures poolSize == old(poolSize) && stackTop == old(stackTop) && Names == old(Names) && Known == old(Known)
      ensures isBusy == old(isBusy) && isSwitchReq == old(isSwitchReq) && globalAnim == old(globalAnim)
    {
      if page == null {
        return false;
      }
      if isBusy {
        return false;
      }
      var leaving := current;
      prev := current;
      current := page;
      isEntering := isEnter;
      var fired := Transition(leaving, page);
      trace := trace + fired;
      KeepPool();
      KeepStack();
      KeepLife(page);
      return true;
    }

    /** The hook sequence of a switch from `leaving` to `page`. */
    method Transition(leaving: Page?, page: Page) returns (fired: seq<Event>)
      requires leaving != null && leaving != page ==> leaving.state == Activity
      modifies page, leaving
      ensures fired == SwitchHooks(leaving, page, old(page.state) == Idle)
      ensures page.state == Activity && page.hasRoot == (old(page.hasRoot) || old(page.state) == Idle)
      ensures page.hasRoot ==> !page.hidden
      ensures leaving != null && leaving != page ==>
        leaving.state == DidDisappear && leaving.hasRoot == old(leaving.hasRoot)
        && leaving.hidden == (old(leaving.hidden) || leaving.hasRoot)
      ensures page.name == old(page.name) && page.id == old(page.id) && page.hasManager == old(page.hasManager)
      ensures leaving != null ==> leaving.name == old(leaving.name) && leaving.id == old(leaving.id) && leaving.hasManager == old(leaving.hasManager)
    {
      var w: seq<Event> := [];
      if leaving != null && leaving != page {
        w := WillDisappearExecute(leaving);
      }
      var l: seq<Event> := [];
      if page.state == Idle {
        l := LoadExecute(page);
      }
      var a1 := WillAppearExecute(page);
      var a2 := DidAppearExecute(page);
      var d: seq<Event> := [];
      if leaving != null && leaving != page {
        d := DidDisappearExecute(leaving);
      }
      fired := w + l + a1 + a2 + d;
    }

    twostate lemma KeepPool()
      requires old(PoolValid())
      requires poolSize == old(poolSize) && Names == old(Names) && Known == old(Known)
      requires unchanged(pool)
      requires forall q :: q in Known ==> q.name == old(q.name) && q.hasManager == old(q.hasManager)
      ensures PoolValid()
    {
    }

    twostate lemma KeepStack()
      requires old(StackValid())
      requires stackTop == old(stackTop) && old(Known) <= Known
      requires unchanged(stack)
      ensures StackValid()
    {
    }

    /** Appending a page under a fresh name keeps the pool valid. */
    twostate lemma PoolAfterAdd(page: Page)
      requires old(PoolValid()) && old(poolSize) < MaxPages
      requires page.name.Some? && page.name.value !in old(Names)
      requires poolSize == old(poolSize) + 1 && Names == old(Names) + [page.name.value] && Known == old(Known) + {page}
      requires pool[old(poolSize)] == page && page.hasManager
      requires forall k :: 0 <= k < MaxPages && k != old(poolSize) ==> pool[k] == old(pool[k])
      requires forall q :: q in old(Known) ==> q.name == old(q.name) && q.hasManager == old(q.hasManager)
      ensures PoolValid()
    {
    }

    /** Closing the gap at slot `i` keeps the pool valid. */
    twostate lemma PoolAfterRemove(i: nat)
      requires old(PoolValid()) && i < old(poolSize)
      requires poolSize == old(poolSize) - 1 && Names == old(Names)[..i] + old(Names)[i + 1..]
      requires Known == old(Known)
      requires forall k :: 0 <= k < i ==> pool[k] == old(pool[k])
      requires forall k :: i <= k < poolSize ==> pool[k] == old(pool[k + 1])
      requires forall k :: poolSize <= k < MaxPages ==> pool[k] == null
      requires forall q :: q in Known ==> unchanged(q)
      ensures PoolValid()
    {
    }

    /** A newly known Idle page that no event mentions keeps the lifecycle valid. */
    twostate lemma LifeAfterAdd(page: Page)
      requires old(LifecycleValid()) && page !in old(Known)
      requires Known == old(Known) + {page}
      requires current == old(current) && prev == old(prev) && trace == old(trace)
      requires page.state == Idle && !page.hasRoot
      requires forall q :: q in old(Known) ==> unchanged(q)
      ensures LifecycleValid()
    {
      forall i | 0 <= i < |trace|
        ensures trace[i].page != page
      {
        assert old(trace[i].page in Known);
      }
      RunOther(Some(Idle), trace, page);
      forall q | q in old(Known) ensures PageOk(q) {
        assert old(PageOk(q));
      }
    }

    /** Lifecycle facts survive any step that leaves the pages, the active
      * page and the trace alone. */
    twostate lemma KeepLifeFrame()
      requires old(LifecycleValid())
      requires Known == old(Known) && current == old(current) && prev == old(prev) && trace == old(trace)
      requires forall q :: q in Known ==> unchanged(q)
      ensures LifecycleValid()
    {
      assert forall q :: q in Known ==> PageOk(q) by {
        forall q | q in Known ensures PageOk(q) {
          assert old(PageOk(q));
        }
      }
    }

    twostate lemma KeepLife(page: Page)
      requires old(LifecycleValid())
      requires Known == old(Known) && page in Known
      requires current == page && prev == old(current)
      requires trace == old(trace) + SwitchHooks(old(current), page, old(page.state) == Idle)
      requires page.state == Activity && (page.hasRoot <==> (old(page.hasRoot) || old(page.state) == Idle))
      requires page.hasRoot ==> !page.hidden
      requires old(current) != null && old(current) != page ==>
        old(current).state == DidDisappear && old(current).hidden && old(current).hasRoot == old(current.hasRoot)
      requires forall q :: q in Known && q != page && q != old(current) ==> unchanged(q)
      ensures LifecycleValid()
    {
      var hooks := SwitchHooks(old(current), page, old(page.state) == Idle);
      forall q | q in Known
        ensures PageOk(q)
      {
        RunAppend(Some(Idle), old(trace), hooks, q);
        SwitchLegal(old(current), page, old(page.state), q, old(q.state));
      }
      assert forall i :: 0 <= i < |trace| ==> trace[i].page in Known by {
        forall i | 0 <= i < |trace| ensures trace[i].page in Known {
          if i >= |old(trace)| {
            assert trace[i] in hooks;
          }
        }
      }
    }

    /** Opens the page registered under `name` on top of the current one,
      * which is pushed on the stack unless the stack is full. */
    method Push(name: string) returns (ok: bool)
      requires Valid()
      modifies this, stack, Known
      ensures Valid()
      ensures Known == old(Known) && Names == old(Names) && poolSize == old(poolSize)
      ensures isBusy == old(isBusy) && globalAnim == old(globalAnim)
      ensures name !in old(Names) ==> && !ok && StackSeq() == old(StackSeq())
                                      && current == old(current) && prev == old(prev) && trace == old(trace)
      ensures name in old(Names) ==>
        var target := old(pool[IndexOf(Names, name)]);
        && StackSeq() == (if old(current) != null && old(stackTop) < MaxStackSize - 1
                          then old(StackSeq()) + [old(current)] else old(StackSeq()))
        && ok == !isBusy
        && (ok ==> && current == target && prev == old(current) && isEntering
                   && trace == old(trace) + SwitchHooks(old(current), target, old(target.state) == Idle))
        && (!ok ==> current == old(current) && trace == old(trace))
    {
      var page := FindPageInPool(name);
      if page == null {
        return false;
      }
      SaveCurrent();
      ok := SwitchTo(page, true);
    }

    /** Puts the active page on the stack before a Push leaves it; a full
      * stack silently drops it. */
    method SaveCurrent()
      requires Valid()
      modifies this, stack
      ensures Valid()
      ensures StackSeq() == (if current != null && old(stackTop) < MaxStackSize - 1
                             then old(StackSeq()) + [current] else old(StackSeq()))
      ensures poolSize == old(poolSize) && Names == old(Names) && Known == old(Known)
      ensures current == old(current) && prev == old(prev) && trace == old(trace)
      ensures isBusy == old(isBusy) && isEntering == old(isEntering) && globalAnim == old(globalAnim)
    {
      if current != null && stackTop < MaxStackSize - 1 {
        stackTop := stackTop + 1;
        stack[stackTop] := current;
        assert stack[..stackTop + 1] == old(stack[..stackTop + 1]) + [current];
        KeepPool();
        KeepLifeFrame();
      }
    }

    /** Goes back to the page on top of the stack, removing it. */
    method Pop() returns (ok: bool)
      requires Valid()
      modifies this, stack, Known
      ensures Valid()
      ensures Known == old(Known) && Names == old(Names) && poolSize == old(poolSize)
      ensures isBusy == old(isBusy) && globalAnim == old(globalAnim)
      ensures old(stackTop) < 0 ==> (&& !ok && stackTop == -1
                                    && current == old(current) && prev == old(prev) && trace == old(trace))
      ensures old(stackTop) >= 0 ==>
        var target := old(stack[stackTop]);
        && StackSeq() == old(StackSeq())[..old(stackTop)]
        && ok == !isBusy
        && (ok ==> && current == target && prev == old(current) && !isEntering
                   && trace == old(trace) + SwitchHooks(old(current), target, old(target.state) == Idle))
        && (!ok ==> current == old(current) && trace == old(trace))
    {
      if stackTop < 0 {
        return false;
      }
      var page := stack[stackTop];
      stack[stackTop] := null;
      stackTop := stackTop - 1;
      assert stack[..stackTop + 1] == old(stack[..stackTop + 1])[..old(stackTop)];
      KeepPool();
      KeepLifeFrame();
      ok := SwitchTo(page, false);
    }

    /** Switches to the page registered under `name` without touching the stack. */
    method Replace(name: string) returns (ok: bool)
      requires Valid()
      modifies this, Known
      ensures Valid()
      ensures Known == old(Known) && Names == old(Names) && poolSize == old(poolSize) && stackTop == old(stackTop)
      ensures isBusy == old(isBusy) && globalAnim == old(globalAnim)
      ensures name !in old(Names) ==> && !ok
                                      && current == old(current) && prev == old(prev) && trace == old(trace)
      ensures name in old(Names) ==>
        var target := old(pool[IndexOf(Names, name)]);
        && ok == !isBusy
        && (ok ==> && current == target && prev == old(current) && isEntering
                   && trace == old(trace) + SwitchHooks(old(current), target, old(target.state) == Idle))
        && (!ok ==> current == old(current) && trace == old(trace))
    {
      var page := FindPageInPool(name);
      if page == null {
        return false;
      }
      ok := SwitchTo(page, true);
    }

    /** Empties the stack and goes back to its bottom page; with an empty
      * stack there is nothing to do and the call succeeds. */
    method BackHome() returns (ok: bool)
      requires Valid()
      modifies this, stack, Known
      ensures Valid()
      ensures Known == old(Known) && Names == old(Names) && poolSize == old(poolSize)
      ensures isBusy == old(isBusy) && globalAnim == old(globalAnim)
      ensures stackTop == -1
      ensures old(stackTop) < 0 ==> ok && current == old(current) && prev == old(prev) && trace == old(trace)
      ensures old(stackTop) >= 0 ==>
        var home := old(stack[0]);
        && ok == !isBusy
        && (ok ==> && current == home && prev == old(current) && !isEntering
                   && trace == old(trace) + SwitchHooks(old(current), home, old(home.state) == Idle))
        && (!ok ==> current == old(current) && trace == old(trace))
    {
      if stackTop < 0 {
        return true;
      }
      var home := stack[0];
      var i := 0;
      while i <= stackTop
        invariant 0 <= i <= stackTop + 1
        modifies stack
        invariant stack.Length == MaxStackSize
        invariant forall k :: 0 <= k < i ==> stack[k] == null
        invariant forall k :: i <= k < MaxStackSize ==> stack[k] == old(stack[k])
      {
        stack[i] := null;
        i := i + 1;
      }
      stackTop := -1;
      KeepPool();
      KeepLifeFrame();
      if home != null {
        ok := SwitchTo(home, false);
      } else {
        ok := false;
      }
    }

    /** Empties the stack, or, with `keepBottom` and a non-empty stack,
      * everything but its bottom entry. */
    method SetStackClear(keepBottom: bool)
      requires Valid()
      modifies this, stack
      ensures Valid()
      ensures keepBottom && old(stackTop) >= 0 ==> StackSeq() == [old(stack[0])]
      ensures !(keepBottom && old(stackTop) >= 0) ==> StackSeq() == []
      ensures poolSize == old(poolSize) && Names == old(Names) && Known == old(Known)
      ensures current == old(current) && prev == old(prev) && trace == old(trace) && isBusy == old(isBusy)
    {
      if keepBottom && stackTop >= 0 {
        var bottom := stack[0];
        var i := 1;
        while i <= stackTop
          invariant 1 <= i <= stackTop + 1
          modifies stack
          invariant stack[0] == bottom
          invariant forall k :: 1 <= k < i ==> stack[k] == null
          invariant forall k :: i <= k < MaxStackSize ==> stack[k] == old(stack[k])
        {
          stack[i] := null;
          i := i + 1;
        }
        stack[0] := bottom;
        stackTop := 0;
        KeepPool();
        KeepLifeFrame();
      } else {
        var i := 0;
        while i <= stackTop
          invariant 0 <= i <= stackTop + 1
          modifies stack
          invariant forall k :: 0 <= k < i ==> stack[k] == null
          invariant forall k :: i <= k < MaxStackSize ==> stack[k] == old(stack[k])
        {
          stack[i] := null;
          i := i + 1;
        }
        stackTop := -1;
        KeepPool();
        KeepLifeFrame();
      }
    }

    /** Takes `name` out of the pool, unloading it first when it is the
      * active page; the pages after it move down one slot. */
    method Unregister(name: string) returns (ok: bool)
      requires Valid()
      modifies this, pool, Known
      ensures Valid()
      ensures ok <==> name in old(Names)
      ensures Known == old(Known) && stackTop == old(stackTop) && prev == old(prev)
      ensures isBusy == old(isBusy) && globalAnim == old(globalAnim)
      ensures !ok ==> && PoolSeq() == old(PoolSeq()) && Names == old(Names)
                      && current == old(current) && trace == old(trace)
      ensures ok ==>
        var k := IndexOf(old(Names), name);
        var gone := old(pool[k]);
        && PoolSeq() == old(PoolSeq())[..k] + old(PoolSeq())[k + 1..]
        && Names == old(Names)[..k] + old(Names)[k + 1..]
        && (gone == old(current) ==> && current == null && gone.state == Idle && !gone.hasRoot
                                     && trace == old(trace) + UnloadHooks(gone))
        && (gone != old(current) ==> current == old(current) && trace == old(trace))
    {
      var i := PoolIndex(name);
      if i < 0 {
        return false;
      }
      var page := pool[i];
      if page == current {
        UnloadCurrent();
      }
      RemoveAt(i);
      return true;
    }

    /** StateUnloadExecute on the active page, which is then forgotten. */
    method UnloadCurrent()
      requires Valid()
      requires current != null
      modifies this, current
      ensures Valid()
      ensures current == null && trace == old(trace) + UnloadHooks(old(current))
      ensures old(current).state == Idle && !old(current).hasRoot
      ensures poolSize == old(poolSize) && stackTop == old(stackTop) && Names == old(Names) && Known == old(Known)
      ensures prev == old(prev) && isBusy == old(isBusy) && globalAnim == old(globalAnim)
    {
      ghost var t0 := trace;
      var page := current;
      var fired := UnloadExecute(page);
      trace := trace + fired;
      current := null;
      KeepPool();
      KeepStack();
      forall q | q in Known
        ensures PageOk(q)
      {
        RunAppend(Some(Idle), t0, fired, q);
        UnloadLegal(page, q, old(q.state));
      }
      assert forall i :: 0 <= i < |trace| ==> trace[i].page in Known by {
        forall i | 0 <= i < |trace| ensures trace[i].page in Known {
          if i >= |t0| {
            assert trace[i] in fired;
          }
        }
      }
    }

    /** Closes the gap that slot `i` leaves: the pages after it move down. */
    method RemoveAt(i: nat)
      requires Valid()
      requires i < poolSize
      modifies this, pool
      ensures Valid()
      ensures PoolSeq() == old(PoolSeq())[..i] + old(PoolSeq())[i + 1..]
      ensures Names == old(Names)[..i] + old(Names)[i + 1..]
      ensures Known == old(Known) && stackTop == old(stackTop) && current == old(current) && prev == old(prev)
      ensures trace == old(trace) && isBusy == old(isBusy) && globalAnim == old(globalAnim)
    {
      ShiftDown(pool, i, poolSize);
      pool[poolSize - 1] := null;
      poolSize := poolSize - 1;
      Names := Names[..i] + Names[i + 1..];
      PoolAfterRemove(i);
      assert pool[..poolSize] == old(pool[..poolSize])[..i] + old(pool[..poolSize])[i + 1..];
      KeepStack();
      KeepLifeFrame();
    }

    /** SetGlobalLoadAnimType: the animation later switches would use. */
    method SetGlobalLoadAnimType(anim: nat, time: nat)
      requires Valid()
      requires time < 0x1_0000
      modifies this
      ensures Valid()
      ensures globalAnim == AnimAttr(anim, time)
      ensures poolSize == old(poolSize) && stackTop == old(stackTop) && Names == old(Names) && Known == old(Known)
      ensures current == old(current) && prev == old(prev) && trace == old(trace) && isBusy == old(isBusy)
    {
      globalAnim := AnimAttr(anim, time);
    }

    /** onSwitchAnimFinish / SwitchAnimCreate: the animation is no longer busy. */
    method AnimFinished()
      requires Valid()
      modifies this
      ensures Valid()
      ensures !isBusy
      ensures poolSize == old(poolSize) && stackTop == old(stackTop) && Names == old(Names) && Known == old(Known)
      ensures current == old(current) && prev == old(prev) && trace == old(trace) && globalAnim == old(globalAnim)
    {
      isBusy := false;
    }

    /** Hands a key direction to the active page; in a valid engine an
      * active page exists exactly when there is a current page. */
    method HandleInput(dir: Dir)
      requires Valid()
      modifies this
      ensures Valid()
      ensures trace == old(trace) + (if current != null && current.state == Activity then [KeyTo(current, dir)] else [])
      ensures current != null ==> trace == old(trace) + [KeyTo(current, dir)]
      ensures poolSize == old(poolSize) && stackTop == old(stackTop) && Names == old(Names) && Known == old(Known)
      ensures current == old(current) && prev == old(prev) && isBusy == old(isBusy) && globalAnim == old(globalAnim)
    {
      if current != null && current.state == Activity {
        ghost var t0 := trace;
        trace := trace + [KeyTo(current, dir)];
        forall q | q in Known
          ensures Run(Some(Idle), trace, q) == Some(q.state)
        {
          RunAppend(Some(Idle), t0, [KeyTo(current, dir)], q);
          RunOne(Some(q.state), KeyTo(current, dir), q);
        }
      }
    }

    /** Hands an encoder step to the active page. */
    method HandleEncoder(diff: int)
      requires Valid()
      modifies this
      ensures Valid()
      ensures trace == old(trace) + (if current != null && current.state == Activity then [EncoderTo(current, diff)] else [])
      ensures current != null ==> trace == old(trace) + [EncoderTo(current, diff)]
      ensures poolSize == old(poolSize) && stackTop == old(stackTop) && Names == old(Names) && Known == old(Known)
      ensures current == old(current) && prev == old(prev) && isBusy == old(isBusy) && globalAnim == old(globalAnim)
    {
      if current != null && current.state == Activity {
        ghost var t0 := trace;
        trace := trace + [EncoderTo(current, diff)];
        forall q | q in Known
          ensures Run(Some(Idle), trace, q) == Some(q.state)
        {
          RunAppend(Some(Idle), t0, [EncoderTo(current, diff)], q);
          RunOne(Some(q.state), EncoderTo(current, diff), q);
        }
      }
    }

    /** Hands a button press or release to the active page. */
    method HandleButton(pressed: bool)
      requires Valid()
      modifies this
      ensures Valid()
      ensures trace == old(trace) + (if current != null && current.state == Activity then [ButtonTo(current, pressed)] else [])
      ensures current != null ==> trace == old(trace) + [ButtonTo(current, pressed)]
      ensures poolSize == old(poolSize) && stackTop == old(stackTop) && Names == old(Names) && Known == old(Known)
      ensures current == old(current) && prev == old(prev) && isBusy == old(isBusy) && globalAnim == old(globalAnim)
    {
      if current != null && current.state == Activity {
        ghost var t0 := trace;
        trace := trace + [ButtonTo(current, pressed)];
        forall q | q in Known
          ensures Run(Some(Idle), trace, q) == Some(q.state)
        {
          RunAppend(Some(Idle), t0, [ButtonTo(current, pressed)], q);
          RunOne(Some(q.state), ButtonTo(current, pressed), q);
        }
      }
    }

    /** The active page's name, or "None". */
    function CurrentPageName(): (r: string)
      reads this, pool, stack, Known
      requires Valid()
      ensures current == null ==> r == "None"
      ensures current != null && current.name.Some? ==> r == current.name.value
    {
      if current == null then "None"
      else match current.name
        case Some(n) => n
        case None => ""
    }

    /** The page a Pop would return to, or null with an empty stack. */
    function StackTopPage(): (r: Page?)
      reads this, stack
      requires StackValid()
      ensures r == null <==> StackSeq() == []
      ensures r != null ==> r == StackSeq()[|StackSeq()| - 1]
    {
      if stackTop >= 0 then stack[stackTop] else null
    }
  }
}
