/** The window-lifecycle coordinator of the first main-process revision
    (scrapypilot/main/main.ts): one manager window, a list of VM windows, and
    the rules that decide when the manager is hidden, shown again, or the
    application quits.

    Each handler is modelled twice: a pure step function on a snapshot
    `Shell`, and the class `WindowLifecycle`, which updates its fields in
    place the way the handlers do and is proved to follow the step function.
    Lemmas about runs of events give the reachable-state invariant. */
module Lifecycle {
  import opened Common

  /** The module-level `managerWindow`: `null`, or a window that is shown or hidden. */
  datatype Manager = NoManager | Manager(id: WindowId, visible: bool)

  /** A snapshot of the main process: the manager, the `vmWindows` array,
      whether `app.quit()` has been called, and the id the next
      `new BrowserWindow` will get. */
  datatype Shell = Shell(manager: Manager, vms: seq<WindowId>, quit: bool, next: WindowId)

  predicate HiddenManager(s: Shell)
  {
    s.manager.Manager? && !s.manager.visible
  }

  /** The lifecycle invariant: a hidden manager is tolerated only while some
      VM window is open; all windows are distinct and already allocated. */
  predicate Inv(s: Shell)
  {
    (HiddenManager(s) ==> |s.vms| > 0) &&
    Distinct(s.vms) &&
    (forall i :: 0 <= i < |s.vms| ==> s.vms[i] < s.next) &&
    (s.manager.Manager? ==> s.manager.id < s.next && s.manager.id !in s.vms)
  }

  /** Module load: `managerWindow = null`, `vmWindows = []`. */
  function Initial(): (s: Shell)
    ensures Inv(s) && s.manager.NoManager? && s.vms == [] && !s.quit
  {
    Shell(NoManager, [], false, 0)
  }

  /** `Array.prototype.indexOf`: the first position of `w`, or -1. */
  function IndexOf(ws: seq<WindowId>, w: WindowId): (i: int)
    ensures -1 <= i < |ws|
    ensures i == -1 <==> w !in ws
    ensures 0 <= i ==> ws[i] == w && w !in ws[..i]
  {
    if |ws| == 0 then -1
    else if ws[0] == w then 0
    else
      var k := IndexOf(ws[1..], w);
      if k == -1 then -1
      else
        assert ws[..k + 1] == [ws[0]] + ws[1..][..k];
        k + 1
  }

  /** `createManagerWindow`: an existing manager is only shown, so there is
      never a second one; otherwise a new manager window is opened. */
  function ShowOrCreateManager(s: Shell): (t: Shell)
    ensures t.manager.Manager? && t.manager.visible
    ensures s.manager.Manager? ==> t.manager.id == s.manager.id && t.next == s.next
    ensures s.manager.NoManager? ==> t.manager.id == s.next && t.next == s.next + 1
    ensures t.vms == s.vms && t.quit == s.quit
    ensures Inv(s) ==> Inv(t)
  {
    match s.manager
    case Manager(id, _) => s.(manager := Manager(id, true))
    case NoManager => s.(manager := Manager(s.next, true), next := s.next + 1)
  }

  /** The manager's 'close' handler: with VM windows open the close is
      cancelled and the manager hidden; otherwise the manager is forgotten
      and the application quits. */
  function OnManagerClose(s: Shell): (t: Shell)
    requires s.manager.Manager?
    ensures t.vms == s.vms && t.next == s.next
    ensures t.manager.Manager? <==> |s.vms| > 0
    ensures t.manager.Manager? ==> t.manager == Manager(s.manager.id, false)
    ensures t.quit <==> s.quit || |s.vms| == 0
    ensures Inv(s) ==> Inv(t)
  {
    if |s.vms| > 0 then s.(manager := s.manager.(visible := false))
    else s.(manager := NoManager, quit := true)
  }

  /** `createVMInstance`: exactly one new window is appended; the manager and
      the quit decision are left alone. */
  function OnCreateVm(s: Shell): (t: Shell)
    ensures t.vms == s.vms + [s.next] && |t.vms| == |s.vms| + 1
    ensures t.manager == s.manager && t.quit == s.quit && t.next == s.next + 1
    ensures Inv(s) ==> Inv(t) && s.next !in s.vms
  {
    s.(vms := s.vms + [s.next], next := s.next + 1)
  }

  /** A VM window's 'closed' handler: the window leaves the list; when the
      list becomes empty an existing manager is shown again, and with no
      manager the application quits. An unknown window changes nothing. */
  function OnVmClosed(s: Shell, w: WindowId): (t: Shell)
    ensures w !in s.vms ==> t == s
    ensures w in s.vms ==> |t.vms| == |s.vms| - 1 && multiset(t.vms) == multiset(s.vms) - multiset{w}
    ensures w in s.vms && |t.vms| > 0 ==> t.manager == s.manager && t.quit == s.quit
    ensures w in s.vms && |t.vms| == 0 && s.manager.Manager? ==>
              t.manager == Manager(s.manager.id, true) && t.quit == s.quit
    ensures w in s.vms && |t.vms| == 0 && s.manager.NoManager? ==> t.manager.NoManager? && t.quit
    ensures t.next == s.next
    ensures Inv(s) ==> Inv(t) && w !in t.vms
  {
    var i := IndexOf(s.vms, w);
    if i == -1 then s
    else
      RemovalKeepsInv(s, i);
      AfterRemoval(s, RemoveAt(s.vms, i))
  }

  /** What the 'closed' handler does once the window has been spliced out. */
  function AfterRemoval(s: Shell, rest: seq<WindowId>): Shell
  {
    if |rest| > 0 then s.(vms := rest)
    else if s.manager.Manager? then s.(vms := rest, manager := s.manager.(visible := true))
    else s.(vms := rest, quit := true)
  }

  lemma RemovalKeepsInv(s: Shell, i: nat)
    requires i < |s.vms|
    ensures Inv(s) ==> Inv(AfterRemoval(s, RemoveAt(s.vms, i))) && s.vms[i] !in RemoveAt(s.vms, i)
  {
    if Inv(s) {
      var rest := RemoveAt(s.vms, i);
      RemoveAtKeepsDistinct(s.vms, i);
      forall k | 0 <= k < |rest| ensures rest[k] < s.next {
        assert rest[k] == s.vms[if k < i then k else k + 1];
      }
    }
  }

  /** 'window-all-closed': quits only when no VM window is listed and there
      is no manager window; otherwise it is advisory. */
  function OnAllWindowsClosed(s: Shell): (t: Shell)
    ensures t.manager == s.manager && t.vms == s.vms && t.next == s.next
    ensures t.quit <==> s.quit || (|s.vms| == 0 && s.manager.NoManager?)
    ensures Inv(s) ==> Inv(t)
  {
    if |s.vms| == 0 && s.manager.NoManager? then s.(quit := true) else s
  }

  /** 'open-manager-window': create the manager if there is none, else show it.
      Both branches agree with `createManagerWindow`. */
  function OnOpenManager(s: Shell): (t: Shell)
    ensures t == ShowOrCreateManager(s)
    ensures !HiddenManager(t) && t.manager.Manager?
  {
    if s.manager.NoManager? then ShowOrCreateManager(s)
    else s.(manager := s.manager.(visible := true))
  }

  /** The events the main process reacts to. */
  datatype Event =
    | Ready              // app.whenReady(): createManagerWindow()
    | ManagerClose       // 'close' on the manager window
    | CreateVm           // 'create-vm-instance'
    | VmClosed(w: WindowId)  // 'closed' on VM window w
    | AllWindowsClosed   // 'window-all-closed'
    | OpenManager        // 'open-manager-window'

  /** One handler run. A close of the manager when there is none cannot be
      delivered, so it changes nothing. */
  function Step(s: Shell, e: Event): (t: Shell)
    ensures Inv(s) ==> Inv(t)
    ensures s.quit ==> t.quit
  {
    match e
    case Ready => ShowOrCreateManager(s)
    case ManagerClose => if s.manager.Manager? then OnManagerClose(s) else s
    case CreateVm => OnCreateVm(s)
    case VmClosed(w) => OnVmClosed(s, w)
    case AllWindowsClosed => OnAllWindowsClosed(s)
    case OpenManager => OnOpenManager(s)
  }

  /** The state after handling `evs` in order. */
  function Run(s: Shell, evs: seq<Event>): Shell
    decreases |evs|
  {
    if evs == [] then s else Run(Step(s, evs[0]), evs[1..])
  }

  /** Every handler keeps the lifecycle invariant, so every run does. */
  lemma {:induction false} RunKeepsInv(s: Shell, evs: seq<Event>)
    requires Inv(s)
    ensures Inv(Run(s, evs))
    decreases |evs|
  {
    if evs != [] {
      RunKeepsInv(Step(s, evs[0]), evs[1..]);
    }
  }

  /** In every reachable state a hidden manager comes with at least one VM window. */
  lemma HiddenManagerHasVm(evs: seq<Event>)
    ensures var t := Run(Initial(), evs); HiddenManager(t) ==> |t.vms| > 0
  {
    RunKeepsInv(Initial(), evs);
  }

  /** Once `app.quit()` has been called no later event withdraws it. */
  lemma {:induction false} QuitIsFinal(s: Shell, evs: seq<Event>)
    requires s.quit
    ensures Run(s, evs).quit
    decreases |evs|
  {
    if evs != [] {
      QuitIsFinal(Step(s, evs[0]), evs[1..]);
    }
  }

  /** The behaviour the header comment calls an annoyance: close the manager
      while a VM window is open, then close that window, and the manager is
      shown again instead of the application quitting. */
  lemma ManagerReshownAfterLastVm()
    ensures Run(Initial(), [Ready, CreateVm, ManagerClose]) == Shell(Manager(0, false), [1], false, 2)
    ensures Run(Initial(), [Ready, CreateVm, ManagerClose, VmClosed(1)]) == Shell(Manager(0, true), [], false, 2)
  {
    var s1 := Shell(Manager(0, true), [], false, 1);
    var s2 := Shell(Manager(0, true), [1], false, 2);
    var s3 := Shell(Manager(0, false), [1], false, 2);
    var s4 := Shell(Manager(0, true), [], false, 2);
    assert Step(Initial(), Ready) == s1;
    assert Step(s1, CreateVm) == s2;
    assert Step(s2, ManagerClose) == s3;
    assert Step(s3, VmClosed(1)) == s4;
    assert Run(s3, [VmClosed(1)]) == s4;
    assert Run(s2, [ManagerClose]) == s3;
    assert Run(s2, [ManagerClose, VmClosed(1)]) == s4;
  }

  /** The main process as a mutable object: the handlers of
      scrapypilot/main/main.ts update these fields in place. */
  class WindowLifecycle {
    var managerWindow: Manager
    var vmWindows: seq<WindowId>
    var quitRequested: bool
    var nextWindow: WindowId

    function State(): Shell
      reads this
    {
      Shell(managerWindow, vmWindows, quitRequested, nextWindow)
    }

    ghost predicate Valid()
      reads this
    {
      Inv(State())
    }

    constructor ()
      ensures Valid() && State() == Initial()
    {
      managerWindow := NoManager;
      vmWindows := [];
      quitRequested := false;
      nextWindow := 0;
    }

    /** `new BrowserWindow(...)`: a window no one has seen yet. */
    method NewWindow() returns (w: WindowId)
      modifies this`nextWindow
      ensures w == old(nextWindow) && nextWindow == w + 1
    {
      w := nextWindow;
      nextWindow := nextWindow + 1;
    }

    method CreateManagerWindow()
      requires Valid()
      modifies this
      ensures Valid() && State() == ShowOrCreateManager(old(State()))
    {
      if managerWindow.Manager? {
        managerWindow := managerWindow.(visible := true);
        return;
      }
      var w := NewWindow();
      managerWindow := Manager(w, true);
    }

    method HandleManagerClose()
      requires Valid() && managerWindow.Manager?
      modifies this
      ensures Valid() && State() == OnManagerClose(old(State()))
    {
      if |vmWindows| > 0 {
        managerWindow := managerWindow.(visible := false);
      } else {
        managerWindow := NoManager;
        quitRequested := true;
      }
    }

    method CreateVMInstance()
      requires Valid()
      modifies this
      ensures Valid() && State() == OnCreateVm(old(State()))
    {
      var w := NewWindow();
      vmWindows := vmWindows + [w];
    }

    method HandleVmClosed(w: WindowId)
      requires Valid()
      modifies this
      ensures Valid() && State() == OnVmClosed(old(State()), w)
    {
      var index := IndexOf(vmWindows, w);
      if index != -1 {
        RemovalKeepsInv(State(), index);
        vmWindows := RemoveAt(vmWindows, index);
        if |vmWindows| == 0 {
          if managerWindow.Manager? {
            managerWindow := managerWindow.(visible := true);
          } else {
            quitRequested := true;
          }
        }
      }
    }

    method HandleWindowAllClosed()
      requires Valid()
      modifies this
      ensures Valid() && State() == OnAllWindowsClosed(old(State()))
    {
      if |vmWindows| == 0 && managerWindow == NoManager {
        quitRequested := true;
      }
    }

    method HandleOpenManagerWindow()
      requires Valid()
      modifies this
      ensures Valid() && State() == OnOpenManager(old(State()))
    {
      if managerWindow.NoManager? {
        CreateManagerWindow();
      } else {
        managerWindow := managerWindow.(visible := true);
      }
    }
  }
}
