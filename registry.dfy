/** The main process of the current revision (src/main/main.ts): the class
    `AgentPilotApp`, its registry of VM entries in creation order, the guarded
    creation of a VM, the teardown when a VM window closes, the per-entry
    status, the summaries sent to the manager, and the dispatch of VM commands.

    Windows are opaque ids; IPC messages are not modelled, only what each
    handler does to the registry, the manager and the pilots. */
module MainProcess {
  import opened Common
  import opened AgentPilotApi

  /** `uuidv4()`: a fresh id; here the next value of a counter. */
  type VmId = nat

  datatype Status = Running | Paused | Stopped | Error

  /** `VMInfo` (its `createdAt` date is not modelled). */
  datatype VMInfo = VMInfo(id: VmId, name: string, status: Status)

  /** `VMWindow`: one registry entry. */
  datatype VMWindow = VMWindow(window: WindowId, internalId: VmId, instanceId: Option<string>,
                               pilot: AgentPilot, info: VMInfo)

  /** One element of the list `updateVMList` sends to the manager. */
  datatype Summary = Summary(id: VmId, name: string, status: Status)

  /** The settings store's values; an unset key is the empty string. */
  datatype Settings = Settings(scrapybaraKey: string, anthropicKey: string, openaiKey: string, maxVmInstances: int)

  const DefaultMaxVmInstances: int := 25

  /** `settings.maxVmInstances || 25`: a zero limit means the default. */
  function MaxInstances(s: Settings): (m: int)
    ensures m != 0
    ensures s.maxVmInstances != 0 ==> m == s.maxVmInstances
    ensures s.maxVmInstances == 0 ==> m == DefaultMaxVmInstances
  {
    if s.maxVmInstances != 0 then s.maxVmInstances else DefaultMaxVmInstances
  }

  /** `findIndex(vm => vm.internal_id === id)`: the first entry with that id, or -1. */
  function FindIndex(vms: seq<VMWindow>, id: VmId): (i: int)
    ensures -1 <= i < |vms|
    ensures i == -1 <==> id !in Ids(vms)
    ensures 0 <= i ==> vms[i].internalId == id && forall k :: 0 <= k < i ==> vms[k].internalId != id
  {
    if |vms| == 0 then -1
    else if vms[0].internalId == id then 0
    else
      var k := FindIndex(vms[1..], id);
      assert Ids(vms) == {vms[0].internalId} + Ids(vms[1..]) by {
        forall x | x in Ids(vms) ensures x in {vms[0].internalId} + Ids(vms[1..]) {
          var j :| 0 <= j < |vms| && vms[j].internalId == x;
          if j > 0 { assert vms[1..][j - 1] == vms[j]; }
        }
      }
      if k == -1 then -1 else k + 1
  }

  /** The ids listed in the registry. */
  function Ids(vms: seq<VMWindow>): set<VmId>
  {
    set i | 0 <= i < |vms| :: vms[i].internalId
  }

  /** `find(vm => vm.internal_id === id)`: the entry, or `undefined`. */
  function Find(vms: seq<VMWindow>, id: VmId): (r: Option<VMWindow>)
    ensures r.None? <==> id !in Ids(vms)
    ensures r.Some? ==> r.value in vms && r.value.internalId == id
  {
    var i := FindIndex(vms, id);
    if i == -1 then None else Some(vms[i])
  }

  /** `sendToVM`: the window a message for `id` goes to; nothing for an unknown id. */
  function SendTarget(vms: seq<VMWindow>, id: VmId): (w: Option<WindowId>)
    ensures w.None? <==> id !in Ids(vms)
    ensures w.Some? ==> exists i :: 0 <= i < |vms| && vms[i].internalId == id && vms[i].window == w.value
  {
    match Find(vms, id)
    case None => None
    case Some(e) => Some(e.window)
  }

  /** `updateVMList`: one summary per entry, in registry order. */
  function Summaries(vms: seq<VMWindow>): (r: seq<Summary>)
    ensures |r| == |vms|
    ensures forall i :: 0 <= i < |vms| ==> r[i] == Summary(vms[i].internalId, vms[i].info.name, vms[i].info.status)
  {
    if vms == [] then []
    else [Summary(vms[0].internalId, vms[0].info.name, vms[0].info.status)] + Summaries(vms[1..])
  }

  /** The entry `vms[i]` with its status overwritten. */
  function WithStatus(vms: seq<VMWindow>, i: nat, st: Status): (r: seq<VMWindow>)
    requires i < |vms|
    ensures |r| == |vms| && Ids(r) == Ids(vms)
    ensures forall k :: 0 <= k < |vms| && k != i ==> r[k] == vms[k]
    ensures r[i].info.status == st && r[i] == vms[i].(info := vms[i].info.(status := st))
  {
    var r := vms[i := vms[i].(info := vms[i].info.(status := st))];
    assert forall x :: x in Ids(r) <==> x in Ids(vms) by {
      forall x ensures x in Ids(r) <==> x in Ids(vms) {
        if x in Ids(vms) {
          var j :| 0 <= j < |vms| && vms[j].internalId == x;
          assert r[j].internalId == x;
        }
      }
    }
    r
  }

  /** A status change shows in the manager's list at that entry only. */
  lemma SummariesWithStatus(vms: seq<VMWindow>, i: nat, st: Status)
    requires i < |vms|
    ensures Summaries(WithStatus(vms, i, st)) ==
            Summaries(vms)[i := Summary(vms[i].internalId, vms[i].info.name, st)]
  {
  }

  /** A created entry shows as one more summary at the end of the list. */
  lemma SummariesAppend(vms: seq<VMWindow>, e: VMWindow)
    ensures Summaries(vms + [e]) == Summaries(vms) + [Summary(e.internalId, e.info.name, e.info.status)]
  {
  }

  /** The pilots of the registry's entries. */
  function PilotsOf(vms: seq<VMWindow>): set<AgentPilot>
  {
    set i | 0 <= i < |vms| :: vms[i].pilot
  }

  /** Registry entries have distinct ids, windows and pilots, each below the
      counters that hand out fresh ones, and each entry's info carries its id. */
  predicate WellFormed(vms: seq<VMWindow>, nextVmId: VmId, nextWindow: WindowId)
  {
    (forall i, j :: 0 <= i < j < |vms| ==>
       vms[i].internalId != vms[j].internalId && vms[i].window != vms[j].window && vms[i].pilot != vms[j].pilot) &&
    (forall i :: 0 <= i < |vms| ==>
       vms[i].internalId < nextVmId && vms[i].window < nextWindow && vms[i].info.id == vms[i].internalId)
  }

  /** Appending an entry with fresh id, window and pilot keeps the registry well formed. */
  lemma WellFormedAppend(vms: seq<VMWindow>, e: VMWindow, nextVmId: VmId, nextWindow: WindowId)
    requires WellFormed(vms, nextVmId, nextWindow)
    requires e.internalId == nextVmId && e.info.id == nextVmId && e.window == nextWindow && e.pilot !in PilotsOf(vms)
    ensures WellFormed(vms + [e], nextVmId + 1, nextWindow + 1)
    ensures Ids(vms + [e]) == Ids(vms) + {nextVmId} && nextVmId !in Ids(vms)
    ensures PilotsOf(vms + [e]) == PilotsOf(vms) + {e.pilot}
  {
    var r := vms + [e];
    forall i, j | 0 <= i < j < |r|
      ensures r[i].internalId != r[j].internalId && r[i].window != r[j].window && r[i].pilot != r[j].pilot
    {
      if j == |vms| {
        assert r[i] == vms[i];
        assert r[i].pilot in PilotsOf(vms);
      }
    }
    assert forall x :: x in Ids(r) <==> x in Ids(vms) || x == nextVmId by {
      forall x ensures x in Ids(r) <==> x in Ids(vms) || x == nextVmId {
        if x in Ids(vms) {
          var k :| 0 <= k < |vms| && vms[k].internalId == x;
          assert r[k] == vms[k];
        }
        if x == nextVmId {
          assert r[|vms|].internalId == x;
        }
      }
    }
    assert forall q :: q in PilotsOf(r) <==> q in PilotsOf(vms) || q == e.pilot by {
      forall q ensures q in PilotsOf(r) <==> q in PilotsOf(vms) || q == e.pilot {
        if q in PilotsOf(vms) {
          var k :| 0 <= k < |vms| && vms[k].pilot == q;
          assert r[k] == vms[k];
        }
        if q == e.pilot {
          assert r[|vms|].pilot == q;
        }
      }
    }
  }

  /** Splicing an entry out keeps the registry well formed and drops its id. */
  lemma WellFormedRemove(vms: seq<VMWindow>, i: nat, nextVmId: VmId, nextWindow: WindowId)
    requires i < |vms| && WellFormed(vms, nextVmId, nextWindow)
    ensures WellFormed(RemoveAt(vms, i), nextVmId, nextWindow)
    ensures Ids(RemoveAt(vms, i)) == Ids(vms) - {vms[i].internalId}
    ensures PilotsOf(RemoveAt(vms, i)) <= PilotsOf(vms)
  {
    var r := RemoveAt(vms, i);
    forall a, b | 0 <= a < b < |r|
      ensures r[a].internalId != r[b].internalId && r[a].window != r[b].window && r[a].pilot != r[b].pilot
    {
      var a', b' := if a < i then a else a + 1, if b < i then b else b + 1;
      assert r[a] == vms[a'] && r[b] == vms[b'] && a' < b';
    }
    RemoveIds(vms, i, nextVmId, nextWindow);
    forall q | q in PilotsOf(r) ensures q in PilotsOf(vms) {
      var k :| 0 <= k < |r| && r[k].pilot == q;
      assert vms[if k < i then k else k + 1].pilot == q;
    }
  }

  lemma RemoveIds(vms: seq<VMWindow>, i: nat, nextVmId: VmId, nextWindow: WindowId)
    requires i < |vms| && WellFormed(vms, nextVmId, nextWindow)
    ensures Ids(RemoveAt(vms, i)) == Ids(vms) - {vms[i].internalId}
  {
    var r := RemoveAt(vms, i);
    forall x | x in Ids(r) ensures x in Ids(vms) && x != vms[i].internalId {
      var k :| 0 <= k < |r| && r[k].internalId == x;
      var k' := if k < i then k else k + 1;
      assert r[k] == vms[k'] && k' != i;
    }
    forall x | x in Ids(vms) && x != vms[i].internalId ensures x in Ids(r) {
      var k :| 0 <= k < |vms| && vms[k].internalId == x;
      assert k != i;
      assert r[if k < i then k else k - 1] == vms[k];
    }
  }

  /** Overwriting one status keeps the registry well formed. */
  lemma WellFormedWithStatus(vms: seq<VMWindow>, i: nat, st: Status, nextVmId: VmId, nextWindow: WindowId)
    requires i < |vms| && WellFormed(vms, nextVmId, nextWindow)
    ensures WellFormed(WithStatus(vms, i, st), nextVmId, nextWindow)
    ensures PilotsOf(WithStatus(vms, i, st)) == PilotsOf(vms)
  {
    var r := WithStatus(vms, i, st);
    assert forall k :: 0 <= k < |vms| ==> r[k].pilot == vms[k].pilot;
    assert forall q :: q in PilotsOf(r) <==> q in PilotsOf(vms) by {
      forall q ensures q in PilotsOf(r) <==> q in PilotsOf(vms) {
        if q in PilotsOf(vms) {
          var k :| 0 <= k < |vms| && vms[k].pilot == q;
          assert r[k].pilot == q;
        }
      }
    }
  }

  datatype ManagerRef =
    | NoManager
    | Shown(id: WindowId)
    | Destroyed(id: WindowId)  // closed; the field keeps pointing at it

  datatype CreateResult =
    | MissingKey           // 'error' to the manager: no Scrapybara key
    | LimitReached(limit: int)
    | InitFailed(id: VmId) // init threw or gave no stream URL; the error is caught and logged
    | Created(id: VmId)

  datatype Command = Act(prompt: string) | Pause | Resume | Stop | Other(name: string)

  datatype CommandResult =
    | UnknownVm
    | Acted(act: ActResult)
    | Forwarded(outcome: RemoteOutcome)  // pause or resume
    | WindowDestroyed
    | Ignored

  class AgentPilotApp {
    var managerWindow: ManagerRef
    var vmWindows: seq<VMWindow>
    /** The ids whose window has its 'closed' listener attached. */
    var closeListeners: set<VmId>
    const settings: Settings
    var quitRequested: bool
    var nextWindow: WindowId
    var nextVmId: VmId

    /** The pilot of the entry `id`, as a frame. */
    function PilotOf(id: VmId): set<object>
      reads this
    {
      var i := FindIndex(vmWindows, id);
      if i == -1 then {} else {vmWindows[i].pilot}
    }

    /** The registry is well formed, every pilot is consistent, a 'closed'
        listener exists only for a listed id, and the manager's window was
        allocated. */
    ghost predicate Valid()
      reads this, PilotsOf(vmWindows)
    {
      WellFormed(vmWindows, nextVmId, nextWindow) &&
      (forall p :: p in PilotsOf(vmWindows) ==> p.Valid()) &&
      closeListeners <= Ids(vmWindows) &&
      (!managerWindow.NoManager? ==> managerWindow.id < nextWindow)
    }

    constructor (settings: Settings)
      ensures Valid() && this.settings == settings
      ensures managerWindow == NoManager && vmWindows == [] && closeListeners == {} && !quitRequested
    {
      this.settings := settings;
      managerWindow := NoManager;
      vmWindows := [];
      closeListeners := {};
      quitRequested := false;
      nextWindow, nextVmId := 0, 0;
    }

    method NewWindow() returns (w: WindowId)
      modifies this`nextWindow
      ensures w == old(nextWindow) && nextWindow == w + 1
    {
      w := nextWindow;
      nextWindow := nextWindow + 1;
    }

    /** `createManagerWindow`: show an existing manager (which throws if it
        was destroyed), otherwise open one. */
    method CreateManagerWindow() returns (threw: bool)
      requires Valid()
      modifies this
      ensures Valid() && vmWindows == old(vmWindows) && closeListeners == old(closeListeners)
      ensures quitRequested == old(quitRequested) && nextVmId == old(nextVmId)
      ensures threw <==> old(managerWindow).Destroyed?
      ensures old(managerWindow).NoManager? ==>
                managerWindow == Shown(old(nextWindow)) && nextWindow == old(nextWindow) + 1
      ensures !old(managerWindow).NoManager? ==> managerWindow == old(managerWindow) && nextWindow == old(nextWindow)
    {
      threw := false;
      if !managerWindow.NoManager? {
        threw := managerWindow.Destroyed?;
        return;
      }
      var w := NewWindow();
      managerWindow := Shown(w);
    }

    /** The manager's 'close' handler: the application quits, whatever VM
        windows are open; the field is not reset. */
    method HandleManagerClose()
      requires Valid() && managerWindow.Shown?
      modifies this
      ensures Valid() && quitRequested && managerWindow == Destroyed(old(managerWindow).id)
      ensures vmWindows == old(vmWindows) && closeListeners == old(closeListeners)
      ensures nextWindow == old(nextWindow) && nextVmId == old(nextVmId)
    {
      quitRequested := true;
      managerWindow := Destroyed(managerWindow.id);
    }

    /** 'window-all-closed': quit. */
    method HandleWindowAllClosed()
      modifies this
      ensures quitRequested
      ensures managerWindow == old(managerWindow) && vmWindows == old(vmWindows)
      ensures closeListeners == old(closeListeners)
      ensures nextWindow == old(nextWindow) && nextVmId == old(nextVmId)
    {
      quitRequested := true;
    }

    /** 'open-manager-window': create the manager if there is none, else show it. */
    method HandleOpenManagerWindow() returns (threw: bool)
      requires Valid()
      modifies this
      ensures Valid() && vmWindows == old(vmWindows) && closeListeners == old(closeListeners)
      ensures quitRequested == old(quitRequested) && nextVmId == old(nextVmId)
      ensures threw <==> old(managerWindow).Destroyed?
      ensures old(managerWindow).NoManager? ==>
                managerWindow == Shown(old(nextWindow)) && nextWindow == old(nextWindow) + 1
      ensures !old(managerWindow).NoManager? ==> managerWindow == old(managerWindow) && nextWindow == old(nextWindow)
    {
      if managerWindow.NoManager? {
        threw := CreateManagerWindow();
      } else {
        threw := managerWindow.Destroyed?;
      }
    }

    /** `createVMInstance`: refuse without a Scrapybara key or at the limit;
        otherwise open a window, make its pilot with the relay callback,
        append exactly one entry with a fresh id, the given name and status
        running, then await `init`. A failed `init` leaves the entry listed
        and attaches no 'closed' listener; a successful one starts the
        initial prompt, if any, without awaiting it, and attaches the
        listener. */
    method CreateVMInstance(name: string, modelConfig: Option<ModelConfig>, initialPrompt: Option<string>,
                            remote: InitRemote) returns (r: CreateResult)
      requires Valid()
      modifies this
      ensures Valid()
      ensures managerWindow == old(managerWindow) && quitRequested == old(quitRequested)
      ensures r.MissingKey? <==> settings.scrapybaraKey == ""
      ensures r.LimitReached? <==> settings.scrapybaraKey != "" && |old(vmWindows)| >= MaxInstances(settings)
      ensures settings.scrapybaraKey == "" ==> r == MissingKey && unchanged(this)
      ensures settings.scrapybaraKey != "" && |old(vmWindows)| >= MaxInstances(settings) ==>
                r == LimitReached(MaxInstances(settings)) && unchanged(this)
      ensures settings.scrapybaraKey != "" && |old(vmWindows)| < MaxInstances(settings) ==> (
                |vmWindows| == |old(vmWindows)| + 1 && vmWindows[..|old(vmWindows)|] == old(vmWindows) &&
                var id, e := old(nextVmId), vmWindows[|old(vmWindows)|];
                id !in Ids(old(vmWindows)) && e.internalId == id && e.info == VMInfo(id, name, Running) &&
                e.instanceId == None && fresh(e.pilot) && e.pilot.onStep == Some(id) &&
                e.pilot.model == SelectModel(modelConfig, ApiConfig(Some(settings.scrapybaraKey),
                                                                    Some(settings.anthropicKey),
                                                                    Some(settings.openaiKey))) &&
                (e.pilot.actInProgress <==> r.Created? && initialPrompt.Some? && initialPrompt.value != "") &&
                e.pilot.instance == (if remote.StartRejects? then None else Some(Instance(remote.id))) &&
                e.pilot.instanceId == (if remote.StartRejects? then None else Some(remote.id)) &&
                e.pilot.tools == (if remote.StartRejects? then [] else [ComputerTool(remote.id)]) &&
                e.pilot.streamUrl == (if remote.StartRejects? || remote.StreamUrlRejects? then None
                                      else Some(remote.url)) &&
                e.pilot.sinkCalls == [] &&
                e.pilot.remoteCalls == [StartBrowser] +
                  (if e.pilot.actInProgress then [ActStream(initialPrompt.value, e.pilot.model, e.pilot.tools)]
                   else []) &&
                r == (if remote.Started? && remote.url != "" then Created(id) else InitFailed(id)) &&
                closeListeners == old(closeListeners) + (if r.Created? then {id} else {}))
    {
      if settings.scrapybaraKey == "" {
        return MissingKey;
      }
      var maxInstances := MaxInstances(settings);
      if |vmWindows| >= maxInstances {
        return LimitReached(maxInstances);
      }
      var vmId, pilot := AddEntry(name, modelConfig);
      var started := StartPilot(pilot, initialPrompt, remote);
      if !started {
        return InitFailed(vmId);
      }
      closeListeners := closeListeners + {vmId};
      r := Created(vmId);
    }

    /** The awaited part of `createVMInstance`: `init` the pilot; when it
        returns a URL, start the initial prompt's act, which is not awaited,
        so only its synchronous start runs here and the run holds the lock
        when the handler ends. */
    static method StartPilot(pilot: AgentPilot, initialPrompt: Option<string>, remote: InitRemote) returns (started: bool)
      requires pilot.Valid() && !pilot.actInProgress
      modifies pilot
      ensures pilot.Valid() && pilot.sinkCalls == old(pilot.sinkCalls)
      ensures started <==> remote.Started? && remote.url != ""
      ensures remote.StartRejects? ==> pilot.State() == old(pilot.State())
      ensures !remote.StartRejects? ==>
                pilot.State() == old(pilot.State()).(instance := Some(Instance(remote.id)),
                                                     instanceId := Some(remote.id),
                                                     tools := old(pilot.tools) + [ComputerTool(remote.id)],
                                                     streamUrl := if remote.StreamUrlRejects? then old(pilot.streamUrl)
                                                                  else Some(remote.url),
                                                     actInProgress := started && initialPrompt.Some? &&
                                                                      initialPrompt.value != "")
      ensures pilot.actInProgress <==> started && initialPrompt.Some? && initialPrompt.value != ""
      ensures pilot.remoteCalls == old(pilot.remoteCalls) + [StartBrowser] +
                (if pilot.actInProgress then [ActStream(initialPrompt.value, pilot.model, pilot.tools)] else [])
    {
      var streamUrl := pilot.Init(remote);
      started := streamUrl.InitReturned? && streamUrl.streamUrl != "";
      if started && initialPrompt.Some? && initialPrompt.value != "" {
        var _ := pilot.BeginAct(initialPrompt.value);
      }
    }

    /** The synchronous part of `createVMInstance` after the checks: open
        the window, build its pilot with the step callback of the new id,
        and append the entry with status 'running' under the next id. */
    method AddEntry(name: string, modelConfig: Option<ModelConfig>) returns (vmId: VmId, pilot: AgentPilot)
      requires Valid() && settings.scrapybaraKey != ""
      modifies this
      ensures Valid()
      ensures managerWindow == old(managerWindow) && quitRequested == old(quitRequested)
      ensures closeListeners == old(closeListeners)
      ensures vmId == old(nextVmId) && vmId !in Ids(old(vmWindows)) && Ids(vmWindows) == Ids(old(vmWindows)) + {vmId}
      ensures PilotsOf(vmWindows) == PilotsOf(old(vmWindows)) + {pilot}
      ensures vmWindows == old(vmWindows) + [VMWindow(old(nextWindow), vmId, None, pilot, VMInfo(vmId, name, Running))]
      ensures fresh(pilot) && pilot.Valid() && pilot.State() == Fields(None, None, None, [], false, Some(vmId))
      ensures pilot.remoteCalls == [] && pilot.sinkCalls == []
      ensures pilot.model == SelectModel(modelConfig, ApiConfig(Some(settings.scrapybaraKey),
                                                                Some(settings.anthropicKey),
                                                                Some(settings.openaiKey)))
    {
      var vmWindow := NewWindow();
      pilot := new AgentPilot(modelConfig, ApiConfig(Some(settings.scrapybaraKey),
                                                     Some(settings.anthropicKey),
                                                     Some(settings.openaiKey)));
      vmId := nextVmId;
      pilot.SetOnStep(vmId);
      var entry := VMWindow(vmWindow, vmId, pilot.GetInstanceId(), pilot, VMInfo(vmId, name, Running));
      WellFormedAppend(vmWindows, entry, nextVmId, vmWindow);
      vmWindows := vmWindows + [entry];
      nextVmId := nextVmId + 1;
    }

    /** The 'closed' listener of the window made for `vmId`: clean the
        entry's pilot up first, then splice the entry out; the manager is
        shown again when the registry becomes empty, which throws when the
        manager was destroyed. A window without a listener changes nothing. */
    method HandleVmClosed(vmId: VmId, stop: RemoteOutcome) returns (threw: bool)
      requires Valid()
      modifies this, PilotOf(vmId)
      ensures Valid()
      ensures threw <==> vmId in old(closeListeners) && vmWindows == [] && old(managerWindow).Destroyed?
      ensures managerWindow == old(managerWindow) && quitRequested == old(quitRequested)
      ensures nextWindow == old(nextWindow) && nextVmId == old(nextVmId)
      ensures vmId !in old(closeListeners) ==> unchanged(this) && unchanged(old(PilotOf(vmId)))
      ensures vmId in old(closeListeners) ==>
                var i := FindIndex(old(vmWindows), vmId);
                0 <= i && vmWindows == RemoveAt(old(vmWindows), i) && vmId !in Ids(vmWindows) &&
                closeListeners == old(closeListeners) - {vmId} &&
                var p := old(vmWindows)[i].pilot;
                p.remoteCalls == old(p.remoteCalls) +
                  (if old(p.instance).Some? then [StopInstance(old(p.instance).value.id)] else []) &&
                (stop.Resolves? ==> p.instance.None?) &&
                p.State() == AfterCleanup(old(p.State()), stop) && p.sinkCalls == old(p.sinkCalls)
    {
      var listening := vmId in closeListeners;
      CloseEntry(vmId, stop);
      // `managerWindow.show()` when the registry is empty and a manager
      // was ever made: the manager of this revision is never hidden, so the
      // call changes nothing, but on a destroyed one it throws, after
      // everything else is done.
      threw := listening && vmWindows == [] && managerWindow.Destroyed?;
    }

    /** The listener's work before the manager is shown again. */
    method CloseEntry(vmId: VmId, stop: RemoteOutcome)
      requires Valid()
      modifies this, PilotOf(vmId)
      ensures Valid()
      ensures managerWindow == old(managerWindow) && quitRequested == old(quitRequested)
      ensures nextWindow == old(nextWindow) && nextVmId == old(nextVmId)
      ensures vmId !in old(closeListeners) ==> unchanged(this) && unchanged(old(PilotOf(vmId)))
      ensures vmId in old(closeListeners) ==>
                var i := FindIndex(old(vmWindows), vmId);
                0 <= i && vmWindows == RemoveAt(old(vmWindows), i) && vmId !in Ids(vmWindows) &&
                closeListeners == old(closeListeners) - {vmId} &&
                var p := old(vmWindows)[i].pilot;
                p.remoteCalls == old(p.remoteCalls) +
                  (if old(p.instance).Some? then [StopInstance(old(p.instance).value.id)] else []) &&
                (stop.Resolves? ==> p.instance.None?) &&
                p.State() == AfterCleanup(old(p.State()), stop) && p.sinkCalls == old(p.sinkCalls)
    {
      if vmId !in closeListeners {
        return;
      }
      var index := FindIndex(vmWindows, vmId);
      // The source reads `vmWindows[index]` before testing `index !== -1`;
      // Valid() makes that test always pass, since a listener exists only
      // for a listed id.
      var pilot := vmWindows[index].pilot;
      assert pilot in PilotsOf(vmWindows);
      var _ := pilot.Cleanup(stop);
      WellFormedRemove(vmWindows, index, nextVmId, nextWindow);
      vmWindows := RemoveAt(vmWindows, index);
      closeListeners := closeListeners - {vmId};
    }

    /** `updateInstanceStatus`: no effect for an unknown id; otherwise only
        that entry's status changes. */
    method UpdateInstanceStatus(vmId: VmId, status: Status)
      requires Valid()
      modifies this
      ensures Valid()
      ensures vmId !in Ids(old(vmWindows)) ==> unchanged(this)
      ensures vmId in Ids(old(vmWindows)) ==>
                vmWindows == WithStatus(old(vmWindows), FindIndex(old(vmWindows), vmId), status)
      ensures managerWindow == old(managerWindow) && closeListeners == old(closeListeners)
      ensures quitRequested == old(quitRequested) && nextWindow == old(nextWindow) && nextVmId == old(nextVmId)
    {
      var index := FindIndex(vmWindows, vmId);
      if index != -1 {
        WellFormedWithStatus(vmWindows, index, status, nextVmId, nextWindow);
        vmWindows := WithStatus(vmWindows, index, status);
      }
    }

    /** 'vm-command' `act`: await the entry's pilot; the registry is untouched. */
    method ActOnVm(index: nat, prompt: string, run: StreamRun) returns (r: ActResult)
      requires Valid() && index < |vmWindows|
      modifies vmWindows[index].pilot
      ensures Valid()
      ensures var p := vmWindows[index].pilot;
              old(p.actInProgress) ==> r == Dropped && unchanged(p)
      ensures var p := vmWindows[index].pilot;
              !old(p.actInProgress) ==>
                p.State() == old(p.State()) && !p.actInProgress &&
                p.sinkCalls == old(p.sinkCalls) + Deliveries(p.onStep, run.steps) &&
                p.remoteCalls == old(p.remoteCalls) + [ActStream(prompt, p.model, p.tools)] &&
                r == (if run.outcome.Resolves? then Completed else Threw)
    {
      var pilot := vmWindows[index].pilot;
      assert pilot in PilotsOf(vmWindows);
      r := pilot.Act(prompt, run);
    }

    /** 'vm-command' `pause` / `resume`: await the pilot, then record the
        status; a rejection skips the record. */
    method PauseOrResume(vmId: VmId, index: nat, pause: bool, remote: RemoteOutcome) returns (r: RemoteOutcome)
      requires Valid() && index < |vmWindows| && vmWindows[index].internalId == vmId
      modifies this, vmWindows[index].pilot
      ensures Valid()
      ensures managerWindow == old(managerWindow) && quitRequested == old(quitRequested)
      ensures closeListeners == old(closeListeners) && nextWindow == old(nextWindow) && nextVmId == old(nextVmId)
      ensures vmWindows == if r.Resolves? then WithStatus(old(vmWindows), index, if pause then Paused else Running)
                           else old(vmWindows)
      ensures var p := old(vmWindows[index].pilot);
              r == (if old(p.instance).Some? then remote else Resolves) &&
              p.State() == old(p.State()) && p.sinkCalls == old(p.sinkCalls) &&
              p.remoteCalls == old(p.remoteCalls) +
                (if old(p.instance).None? then []
                 else if pause then [PauseInstance(old(p.instance).value.id)]
                 else [ResumeInstance(old(p.instance).value.id)])
    {
      var pilot := vmWindows[index].pilot;
      assert pilot in PilotsOf(vmWindows);
      if pause {
        r := pilot.Pause(remote);
      } else {
        r := pilot.Resume(remote);
      }
      if r.Resolves? {
        UpdateInstanceStatus(vmId, if pause then Paused else Running);
      }
    }

    /** 'vm-command' `stop`: destroying the window runs its 'closed'
        listener, which cleans the pilot up and splices the entry out; the
        status `stopped` recorded afterwards shows only when no listener
        removed the entry. */
    method StopVm(vmId: VmId, remote: RemoteOutcome)
      requires Valid() && vmId in Ids(vmWindows)
      modifies this, PilotOf(vmId)
      ensures Valid()
      ensures managerWindow == old(managerWindow) && quitRequested == old(quitRequested)
      ensures nextWindow == old(nextWindow) && nextVmId == old(nextVmId)
      ensures closeListeners == old(closeListeners) - {vmId}
      ensures var i := FindIndex(old(vmWindows), vmId);
              var p := old(vmWindows)[i].pilot;
              vmWindows == (if vmId in old(closeListeners) then RemoveAt(old(vmWindows), i)
                            else WithStatus(old(vmWindows), i, Stopped)) &&
              p.remoteCalls == old(p.remoteCalls) +
                (if vmId in old(closeListeners) && old(p.instance).Some?
                 then [StopInstance(old(p.instance).value.id)] else []) &&
              (vmId in old(closeListeners) && remote.Resolves? ==> p.instance.None?) &&
              p.State() == (if vmId in old(closeListeners) then AfterCleanup(old(p.State()), remote)
                            else old(p.State())) &&
              p.sinkCalls == old(p.sinkCalls)
    {
      // Whether or not a throw from the listener's `show()` reaches this
      // handler, the status update that follows it is a no-op once the entry
      // is gone, so the state is the same either way.
      var _ := HandleVmClosed(vmId, remote);
      UpdateInstanceStatus(vmId, Stopped);
    }

    /** 'vm-command': an unknown id is ignored; `act` awaits the pilot's act;
        `pause` and `resume` await the pilot and then record the status, which
        a rejection skips; `stop` destroys the window, whose 'closed' listener
        runs, and then records `stopped`, which only shows when no listener
        removed the entry. */
    method HandleVmCommand(vmId: VmId, command: Command, run: StreamRun, remote: RemoteOutcome)
      returns (r: CommandResult)
      requires Valid()
      modifies this, PilotOf(vmId)
      ensures Valid()
      ensures managerWindow == old(managerWindow) && quitRequested == old(quitRequested)
      ensures nextWindow == old(nextWindow) && nextVmId == old(nextVmId)
      ensures closeListeners == if command.Stop? then old(closeListeners) - {vmId} else old(closeListeners)
      ensures vmId !in Ids(old(vmWindows)) ==> r == UnknownVm && unchanged(this)
      ensures vmId in Ids(old(vmWindows)) ==>
                var i := FindIndex(old(vmWindows), vmId);
                var p := old(vmWindows)[i].pilot;
                match command
                case Act(prompt) =>
                  vmWindows == old(vmWindows) && r.Acted? &&
                  (old(p.actInProgress) ==> r.act == Dropped && unchanged(p)) &&
                  (!old(p.actInProgress) ==>
                     p.State() == old(p.State()) && !p.actInProgress &&
                     p.sinkCalls == old(p.sinkCalls) + Deliveries(p.onStep, run.steps) &&
                     p.remoteCalls == old(p.remoteCalls) + [ActStream(prompt, p.model, p.tools)] &&
                     r.act == (if run.outcome.Resolves? then Completed else Threw))
                case Pause =>
                  r == Forwarded(if old(p.instance).Some? then remote else Resolves) &&
                  p.State() == old(p.State()) && p.sinkCalls == old(p.sinkCalls) &&
                  p.remoteCalls == old(p.remoteCalls) +
                    (if old(p.instance).Some? then [PauseInstance(old(p.instance).value.id)] else []) &&
                  vmWindows == if r.outcome.Resolves? then WithStatus(old(vmWindows), i, Paused) else old(vmWindows)
                case Resume =>
                  r == Forwarded(if old(p.instance).Some? then remote else Resolves) &&
                  p.State() == old(p.State()) && p.sinkCalls == old(p.sinkCalls) &&
                  p.remoteCalls == old(p.remoteCalls) +
                    (if old(p.instance).Some? then [ResumeInstance(old(p.instance).value.id)] else []) &&
                  vmWindows == if r.outcome.Resolves? then WithStatus(old(vmWindows), i, Running) else old(vmWindows)
                case Stop =>
                  r == WindowDestroyed &&
                  vmWindows == (if vmId in old(closeListeners) then RemoveAt(old(vmWindows), i)
                                else WithStatus(old(vmWindows), i, Stopped)) &&
                  p.remoteCalls == old(p.remoteCalls) +
                    (if vmId in old(closeListeners) && old(p.instance).Some?
                     then [StopInstance(old(p.instance).value.id)] else []) &&
                  (vmId in old(closeListeners) && remote.Resolves? ==> p.instance.None?) &&
                  p.State() == (if vmId in old(closeListeners) then AfterCleanup(old(p.State()), remote)
                                else old(p.State())) &&
                  p.sinkCalls == old(p.sinkCalls)
                case Other(_) => r == Ignored && vmWindows == old(vmWindows)
    {
      var index := FindIndex(vmWindows, vmId);
      if index == -1 {
        return UnknownVm;
      }
      match command
      case Act(prompt) =>
        var a := ActOnVm(index, prompt, run);
        r := Acted(a);
      case Pause =>
        var o := PauseOrResume(vmId, index, true, remote);
        r := Forwarded(o);
      case Resume =>
        var o := PauseOrResume(vmId, index, false, remote);
        r := Forwarded(o);
      case Stop =>
        StopVm(vmId, remote);
        r := WindowDestroyed;
      case Other(_) =>
        r := Ignored;
    }
  }
}
