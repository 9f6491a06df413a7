/** The values the packages hand to one another: configuration, observations,
    plans and results. Message texts are reduced to kinds. */
module Domain {
  import opened Machine

  /** Nanoseconds on the wall clock. */
  type Instant = int

  datatype AdapterKind = Ollama | ComfyUI | LlamaSwap | SystemdUnit | UnknownAdapter(text: string)

  datatype Service = Service(
    name: string, adapter: AdapterKind, endpoint: string, unit: string, userUnit: bool,
    priority: int, allowStop: bool, timeout: i64, drainTimeout: i64)

  datatype Policy = Policy(
    vramFloorMiB: u64, defaultWorkload: string, reactive: bool, pollInterval: i64,
    gpuIndex: int, minEffectMiB: u64, actionCooldown: i64)

  datatype Config = Config(policy: Policy, services: seq<Service>)

  /** Position of the first service with this name, or -1. */
  function IndexOfService(services: seq<Service>, name: string): (i: int)
    ensures -1 <= i < |services|
    ensures i >= 0 ==> services[i].name == name && forall j :: 0 <= j < i ==> services[j].name != name
    ensures i < 0 ==> forall s :: s in services ==> s.name != name
  {
    if services == [] then -1
    else if services[0].name == name then 0
    else
      var i := IndexOfService(services[1..], name);
      if i < 0 then -1 else i + 1
  }

  function LookUp(cfg: Config, name: string): Option<Service> {
    var i := IndexOfService(cfg.services, name);
    if i >= 0 then Some(cfg.services[i]) else None
  }

  predicate Configured(cfg: Config, name: string) {
    LookUp(cfg, name).Some?
  }

  ghost predicate DistinctServices(services: seq<Service>) {
    forall i, j :: 0 <= i < j < |services| ==> services[i].name != services[j].name
  }

  /** With distinct names, the lookup finds the service at every index. */
  lemma {:induction false} LookUpAt(cfg: Config, i: nat)
    requires DistinctServices(cfg.services) && i < |cfg.services|
    ensures LookUp(cfg, cfg.services[i].name) == Some(cfg.services[i])
  {
    var j := IndexOfService(cfg.services, cfg.services[i].name);
    assert cfg.services[i] in cfg.services;
  }

  /** One GPU at one moment. */
  datatype Device = Device(totalMiB: u64, usedMiB: u64) {
    /** Memory not in use; a used figure above the total reads as none. */
    function FreeMiB(): (free: u64)
      ensures free <= totalMiB
      ensures free + usedMiB >= totalMiB
      ensures free > 0 ==> free + usedMiB == totalMiB
    {
      if usedMiB > totalMiB then 0 else totalMiB - usedMiB
    }
  }

  datatype ServiceState = ServiceState(
    name: string, priority: int, up: bool, heldMiB: u64,
    canRelease: bool, allowStop: bool, stopUnit: bool,
    idle: bool, idleKnown: bool, probeErr: bool,
    cooldownUntil: Option<Instant>, actionInFlight: bool)

  datatype Claim = Claim(service: string, needMiB: u64, at: Instant)

  /** device is None when VRAM could not be read. */
  datatype Observation = Observation(device: Option<Device>, services: seq<ServiceState>, claims: seq<Claim>)

  datatype Verb = Release | Stop

  datatype Trigger = NoTrigger | Request | Reactive | Eviction

  datatype Action = Action(service: string, verb: Verb, expectFreeMiB: u64)

  /** Why one service was passed over. */
  datatype Why =
    | ProbeFailed | NotRunning | NotBelow | HoldsNothing | CoolingDown | InFlight
    | TargetMet | Busy | StopForbidden | NoWayToRelease | NotInConfig

  datatype Note =
    | About(service: string, why: Why)
    | DeviceUnknown
    | AlreadyFree
    | BeneficiaryNotConfigured
    | BestEffort
    | ClaimsIgnored
    | ReactiveOff
    | NoFloor
    | AboveFloor
    | WorkloadNotUp
    | NobodyUp
    | KeptNotInConfig

  datatype Plan = Plan(
    trigger: Trigger, beneficiary: string,
    currentFreeMiB: u64, targetFreeMiB: u64, totalMiB: u64,
    actions: seq<Action>, notes: seq<Note>)

  function NewPlan(trigger: Trigger): Plan {
    Plan(trigger, "", 0, 0, 0, [], [])
  }

  /** failed is Error != ""; a reading that failed is None. */
  datatype ActionResult = ActionResult(
    service: string, verb: Verb, acted: bool, failed: bool,
    freeBeforeMiB: Option<u64>, freeAfterMiB: Option<u64>)

  function FindService(services: seq<ServiceState>, name: string): (r: Option<ServiceState>)
    ensures r.Some? ==> r.value in services && r.value.name == name
    ensures r.None? ==> forall s :: s in services ==> s.name != name
  {
    if services == [] then None
    else if services[0].name == name then Some(services[0])
    else FindService(services[1..], name)
  }

  ghost predicate DistinctNames(services: seq<ServiceState>) {
    forall i, j :: 0 <= i < j < |services| ==> services[i].name != services[j].name
  }

  ghost predicate DistinctClaims(claims: seq<Claim>) {
    forall i, j :: 0 <= i < j < |claims| ==> claims[i].service != claims[j].service
  }
}
