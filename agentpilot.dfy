/** `AgentPilot` (src/api/agentpilot.ts): one VM's handle on a remote
    Scrapybara browser and the single-flight guard around its streamed agent
    run.

    Calls into the Scrapybara SDK are not modelled; each is a parameter that
    says how the awaited call ends. Two ghost logs record what the object
    hands to code outside the model: the calls made to the `onStep` callback
    and the calls issued to the remote service. */
module AgentPilotApi {
  import opened Common

  datatype Provider = Anthropic | OpenAI

  /** `ModelConfig` as it arrives over IPC: the provider may be any string. */
  datatype ModelConfig = ModelConfig(provider: string, name: string)

  /** `APIConfig`; an absent key is `None`. */
  datatype ApiConfig = ApiConfig(scrapybaraKey: Option<string>, anthropicKey: Option<string>, openaiKey: Option<string>)

  /** The `Scrapybara.Model` handed to every agent run. */
  datatype Model = Model(provider: Provider, name: string, apiKey: Option<string>)

  const DefaultModelName: string := "claude-3-7-sonnet-20250219"

  /** The Anthropic entries of `AVAILABLE_MODELS`; the constructor does not
      check a requested name against the list, but its default is one of them. */
  const AnthropicModels: seq<string> :=
    ["claude-3-7-sonnet-20250219", "claude-3-7-sonnet-20250219-thinking", "claude-3-5-sonnet-20241022"]

  /** JavaScript truthiness of an optional string: present and not empty. */
  predicate Truthy(k: Option<string>)
  {
    k.Some? && k.value != ""
  }

  /** `key || undefined`: an empty key counts as no key. */
  function OrUndefined(k: Option<string>): (r: Option<string>)
    ensures r.Some? <==> Truthy(k)
    ensures r.Some? ==> r == k
  {
    if Truthy(k) then k else None
  }

  /** The constructor's choice of model: a known provider keeps the requested
      name and takes that provider's key; anything else, including no
      configuration at all, falls back to the default Anthropic model. */
  function SelectModel(mc: Option<ModelConfig>, api: ApiConfig): (m: Model)
    ensures m.provider == OpenAI <==> mc.Some? && mc.value.provider == "openai"
    ensures m.apiKey == OrUndefined(if m.provider == OpenAI then api.openaiKey else api.anthropicKey)
    ensures mc.Some? && mc.value.provider in {"anthropic", "openai"} ==> m.name == mc.value.name
    ensures !(mc.Some? && mc.value.provider in {"anthropic", "openai"}) ==>
              m.provider == Anthropic && m.name == DefaultModelName && m.name in AnthropicModels
  {
    var anthropicKey := OrUndefined(api.anthropicKey);
    var openaiKey := OrUndefined(api.openaiKey);
    if mc.Some? then
      if mc.value.provider == "anthropic" then Model(Anthropic, mc.value.name, anthropicKey)
      else if mc.value.provider == "openai" then Model(OpenAI, mc.value.name, openaiKey)
      else Model(Anthropic, DefaultModelName, anthropicKey)
    else Model(Anthropic, DefaultModelName, anthropicKey)
  }

  /** A step reported by the agent stream; its content is opaque. */
  type Step = nat

  /** The identity of a callback installed with `setOnStep`. */
  type SinkId = nat

  /** One call of an `onStep` callback. */
  datatype SinkCall = SinkCall(sink: SinkId, step: Step)

  /** The remote browser (`BaseInstance`), known by its id. */
  datatype Instance = Instance(id: string)

  /** `computerTool(instance)`. */
  datatype Tool = ComputerTool(instanceId: string)

  /** A call issued to the Scrapybara service. */
  datatype RemoteCall =
    | StartBrowser
    | ActStream(prompt: string, model: Model, tools: seq<Tool>)
    | StopInstance(instanceId: string)
    | PauseInstance(instanceId: string)
    | ResumeInstance(instanceId: string)

  /** How `init`'s awaited calls end: `startBrowser` rejects, `getStreamUrl`
      rejects, the browser navigation afterwards rejects, or all resolve. */
  datatype InitRemote =
    | StartRejects
    | StreamUrlRejects(id: string)
    | NavigationRejects(id: string, url: string)
    | Started(id: string, url: string)

  datatype InitResult = InitThrew | InitReturned(streamUrl: string)

  /** What the agent stream does: the steps it reports, then whether it ends
      normally or rejects. */
  datatype StreamRun = StreamRun(steps: seq<Step>, outcome: RemoteOutcome)

  datatype ActResult = Dropped | Completed | Threw

  /** The calls the stream's `onStep` wrapper makes for `steps` while the
      slot holds `sink`. */
  function Deliveries(sink: Option<SinkId>, steps: seq<Step>): (r: seq<SinkCall>)
    ensures sink.None? ==> r == []
    ensures sink.Some? ==> |r| == |steps| && forall i :: 0 <= i < |r| ==> r[i] == SinkCall(sink.value, steps[i])
  {
    if sink.None? || steps == [] then [] else [SinkCall(sink.value, steps[0])] + Deliveries(sink, steps[1..])
  }

  /** Steps reach the sink one call per step, in stream order: delivering a
      longer stream extends what a prefix delivered. */
  lemma DeliveriesAppend(sink: Option<SinkId>, a: seq<Step>, b: seq<Step>)
    ensures Deliveries(sink, a + b) == Deliveries(sink, a) + Deliveries(sink, b)
  {
    var l, r := Deliveries(sink, a + b), Deliveries(sink, a) + Deliveries(sink, b);
    if sink.Some? {
      assert |l| == |r|;
      forall i | 0 <= i < |l| ensures l[i] == r[i] {
        if i < |a| {
          assert (a + b)[i] == a[i];
        } else {
          assert (a + b)[i] == b[i - |a|];
        }
      }
    }
  }

  /** The real fields of an `AgentPilot` that change after construction. */
  datatype Fields = Fields(
    instanceId: Option<string>,
    instance: Option<Instance>,
    streamUrl: Option<string>,
    tools: seq<Tool>,
    actInProgress: bool,
    onStep: Option<SinkId>)

  /** The fields `cleanup` leaves: cleared when a bound instance was
      stopped, otherwise as they were. */
  function AfterCleanup(f: Fields, stop: RemoteOutcome): Fields
  {
    if f.instance.Some? && stop.Resolves? then f.(instance := None, instanceId := None, streamUrl := None, tools := [])
    else f
  }

  class AgentPilot {
    const model: Model
    var instanceId: Option<string>
    var instance: Option<Instance>
    var streamUrl: Option<string>
    var tools: seq<Tool>
    var actInProgress: bool
    var onStep: Option<SinkId>
    ghost var sinkCalls: seq<SinkCall>
    ghost var remoteCalls: seq<RemoteCall>

    function State(): Fields
      reads this
    {
      Fields(instanceId, instance, streamUrl, tools, actInProgress, onStep)
    }

    /** The instance id mirrors the bound instance, and a stream URL or a
        tool is only held while an instance is bound. */
    ghost predicate Valid()
      reads this
    {
      (instance.Some? <==> instanceId.Some?) &&
      (instance.Some? ==> instanceId.value == instance.value.id) &&
      (instance.None? ==> streamUrl.None? && tools == [])
    }

    /** The constructor once the Scrapybara key has been checked; see
        `NewAgentPilot` for the check itself. */
    constructor (mc: Option<ModelConfig>, api: ApiConfig)
      requires Truthy(api.scrapybaraKey)
      ensures Valid() && model == SelectModel(mc, api)
      ensures State() == Fields(None, None, None, [], false, None)
      ensures sinkCalls == [] && remoteCalls == []
    {
      model := SelectModel(mc, api);
      instanceId, instance, streamUrl := None, None, None;
      tools := [];
      actInProgress := false;
      onStep := None;
      sinkCalls, remoteCalls := [], [];
    }

    /** `init`: start a browser, bind it, add its computer tool, then fetch
        the stream URL and open the start page. A rejection stops the method
        where it happens, keeping what was already stored. */
    method Init(remote: InitRemote) returns (r: InitResult)
      requires Valid()
      modifies this
      ensures Valid() && sinkCalls == old(sinkCalls)
      ensures remoteCalls == old(remoteCalls) + [StartBrowser]
      ensures remote.StartRejects? ==> r == InitThrew && State() == old(State())
      ensures !remote.StartRejects? ==>
                State() == old(State()).(instance := Some(Instance(remote.id)), instanceId := Some(remote.id),
                                         tools := old(tools) + [ComputerTool(remote.id)],
                                         streamUrl := if remote.StreamUrlRejects? then old(streamUrl) else Some(remote.url))
      ensures r.InitReturned? <==> remote.Started?
      ensures remote.Started? ==> r == InitReturned(remote.url)
    {
      remoteCalls := remoteCalls + [StartBrowser];
      if remote.StartRejects? {
        return InitThrew;
      }
      instance := Some(Instance(remote.id));
      instanceId := Some(remote.id);
      tools := tools + [ComputerTool(remote.id)];
      if remote.StreamUrlRejects? {
        return InitThrew;
      }
      streamUrl := Some(remote.url);
      if remote.NavigationRejects? {
        return InitThrew;
      }
      r := InitReturned(remote.url);
    }

    /** The synchronous start of `act`: while a run is in progress the call is
        dropped; otherwise the lock is taken and the agent stream opened. */
    method BeginAct(prompt: string) returns (accepted: bool)
      requires Valid()
      modifies this
      ensures Valid()
      ensures accepted == !old(actInProgress)
      ensures !accepted ==> unchanged(this)
      ensures State() == old(State()).(actInProgress := true) && sinkCalls == old(sinkCalls)
      ensures remoteCalls == old(remoteCalls) + if accepted then [ActStream(prompt, model, tools)] else []
    {
      if actInProgress {
        return false;
      }
      actInProgress := true;
      remoteCalls := remoteCalls + [ActStream(prompt, model, tools)];
      accepted := true;
    }

    /** The `onStep` wrapper given to the stream: the step goes to the
        callback in the slot now, if there is one. */
    method StreamStep(step: Step)
      requires Valid()
      modifies this
      ensures Valid()
      ensures State() == old(State()) && remoteCalls == old(remoteCalls)
      ensures sinkCalls == old(sinkCalls) + Deliveries(onStep, [step])
    {
      if onStep.Some? {
        sinkCalls := sinkCalls + [SinkCall(onStep.value, step)];
      }
    }

    /** The `finally` block of `act`: unlock. */
    method EndAct()
      requires Valid()
      modifies this
      ensures Valid()
      ensures State() == old(State()).(actInProgress := false)
      ensures sinkCalls == old(sinkCalls) && remoteCalls == old(remoteCalls)
    {
      actInProgress := false;
    }

    /** `act`, awaited to the end of its stream. A busy pilot drops the call
        and changes nothing; an accepted call relays every step to the
        current callback and leaves the lock released however the stream
        ends. */
    method Act(prompt: string, run: StreamRun) returns (r: ActResult)
      requires Valid()
      modifies this
      ensures Valid()
      ensures old(actInProgress) ==> r == Dropped && unchanged(this)
      ensures !old(actInProgress) ==>
                State() == old(State()) && !actInProgress &&
                sinkCalls == old(sinkCalls) + Deliveries(onStep, run.steps) &&
                remoteCalls == old(remoteCalls) + [ActStream(prompt, model, tools)] &&
                r == (if run.outcome.Resolves? then Completed else Threw)
    {
      var accepted := BeginAct(prompt);
      if !accepted {
        return Dropped;
      }
      for i := 0 to |run.steps|
        invariant Valid() && State() == old(State()).(actInProgress := true)
        invariant sinkCalls == old(sinkCalls) + Deliveries(onStep, run.steps[..i])
        invariant remoteCalls == old(remoteCalls) + [ActStream(prompt, model, tools)]
      {
        StreamStep(run.steps[i]);
        DeliveriesAppend(onStep, run.steps[..i], [run.steps[i]]);
        assert run.steps[..i + 1] == run.steps[..i] + [run.steps[i]];
      }
      assert run.steps[..|run.steps|] == run.steps;
      EndAct();
      r := if run.outcome.Resolves? then Completed else Threw;
    }

    /** `cleanup`: with an instance bound, stop it and clear the instance, its
        id, the stream URL and the tools; with none, do nothing, so a second
        cleanup after a successful one changes nothing and issues no call. */
    method Cleanup(stop: RemoteOutcome) returns (r: RemoteOutcome)
      requires Valid()
      modifies this
      ensures Valid() && sinkCalls == old(sinkCalls)
      ensures old(instance).None? ==> r == Resolves && unchanged(this)
      ensures old(instance).Some? ==> r == stop && remoteCalls == old(remoteCalls) + [StopInstance(old(instance).value.id)]
      ensures old(instance).Some? && stop.Resolves? ==>
                State() == old(State()).(instance := None, instanceId := None, streamUrl := None, tools := [])
      ensures old(instance).Some? && stop.Rejects? ==> State() == old(State())
    {
      if instance.Some? {
        remoteCalls := remoteCalls + [StopInstance(instance.value.id)];
        if stop.Rejects? {
          return Rejects;
        }
        instance := None;
        instanceId := None;
        streamUrl := None;
        tools := [];
      }
      r := Resolves;
    }

    /** `pause`: forwarded to the instance when one is bound. */
    method Pause(outcome: RemoteOutcome) returns (r: RemoteOutcome)
      requires Valid()
      modifies this
      ensures Valid()
      ensures State() == old(State()) && sinkCalls == old(sinkCalls)
      ensures old(instance).None? ==> r == Resolves && remoteCalls == old(remoteCalls)
      ensures old(instance).Some? ==> r == outcome && remoteCalls == old(remoteCalls) + [PauseInstance(instance.value.id)]
    {
      r := Resolves;
      if instance.Some? {
        remoteCalls := remoteCalls + [PauseInstance(instance.value.id)];
        r := outcome;
      }
    }

    /** `resume`: forwarded to the instance when one is bound. */
    method Resume(outcome: RemoteOutcome) returns (r: RemoteOutcome)
      requires Valid()
      modifies this
      ensures Valid()
      ensures State() == old(State()) && sinkCalls == old(sinkCalls)
      ensures old(instance).None? ==> r == Resolves && remoteCalls == old(remoteCalls)
      ensures old(instance).Some? ==> r == outcome && remoteCalls == old(remoteCalls) + [ResumeInstance(instance.value.id)]
    {
      r := Resolves;
      if instance.Some? {
        remoteCalls := remoteCalls + [ResumeInstance(instance.value.id)];
        r := outcome;
      }
    }

    /** `getInstanceId`: the id of the bound instance, `null` while none is
        bound (before `init` and after a completed `cleanup`). */
    function GetInstanceId(): (id: Option<string>)
      reads this
      ensures Valid() ==> (id.Some? <==> instance.Some?)
      ensures Valid() && id.Some? ==> id.value == instance.value.id
    {
      instanceId
    }

    /** `setOnStep`: the slot holds exactly the new callback. */
    method SetOnStep(callback: SinkId)
      requires Valid()
      modifies this
      ensures Valid()
      ensures State() == old(State()).(onStep := Some(callback)) && GetOnStep() == Some(callback)
      ensures sinkCalls == old(sinkCalls) && remoteCalls == old(remoteCalls)
    {
      onStep := Some(callback);
    }

    function GetOnStep(): Option<SinkId>
      reads this
    {
      onStep
    }
  }

  /** `new AgentPilot(modelConfig, apiConfig)`: throws (here `None`) unless
      the Scrapybara key is present and not empty. */
  method NewAgentPilot(mc: Option<ModelConfig>, api: Option<ApiConfig>) returns (r: Option<AgentPilot>)
    ensures r.Some? <==> api.Some? && Truthy(api.value.scrapybaraKey)
    ensures r.Some? ==> fresh(r.value) && r.value.Valid() && r.value.model == SelectModel(mc, api.value)
    ensures r.Some? ==> r.value.State() == Fields(None, None, None, [], false, None)
  {
    if api.None? || !Truthy(api.value.scrapybaraKey) {
      return None;
    }
    var p := new AgentPilot(mc, api.value);
    r := Some(p);
  }

  /** A run in flight drops a second `act`, and a callback replaced while the
      stream runs receives every later step: the first callback gets the
      first step only, the second callback the second step only. */
  method SingleFlightScenario(api: ApiConfig, s1: Step, s2: Step)
    returns (first: bool, second: ActResult, lockAfter: bool, ghost calls: seq<SinkCall>)
    requires Truthy(api.scrapybaraKey)
    ensures first && second == Dropped && !lockAfter
    ensures calls == [SinkCall(1, s1), SinkCall(2, s2)]
  {
    var p := new AgentPilot(None, api);
    p.SetOnStep(1);
    first := p.BeginAct("go to bing.com");
    p.StreamStep(s1);
    second := p.Act("click search", StreamRun([s2], Resolves));
    p.SetOnStep(2);
    p.StreamStep(s2);
    p.EndAct();
    lockAfter := p.actInProgress;
    calls := p.sinkCalls;
  }

  /** `cleanup` is idempotent: after one that completes, a second issues no
      remote call and changes nothing, so at most one stop is ever sent. */
  method CleanupTwice(p: AgentPilot, stop: RemoteOutcome) returns (first: RemoteOutcome, second: RemoteOutcome)
    requires p.Valid()
    modifies p
    ensures first.Resolves? ==> second.Resolves?
    ensures first.Resolves? ==>
              p.State() == old(p.State()).(instance := None, instanceId := None, streamUrl := None, tools := []) &&
              p.remoteCalls == old(p.remoteCalls) +
                (if old(p.instance).Some? then [StopInstance(old(p.instance).value.id)] else [])
  {
    first := p.Cleanup(stop);
    second := p.Cleanup(stop);
  }
}
