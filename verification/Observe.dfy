/** Turning probe outcomes into the scheduler's input. */
module Observe {
  import opened Machine
  import opened Domain

  /** One probe: it failed, or the service answered. */
  datatype Probe = Unreachable | Answered(up: bool, heldMiB: u64, idle: bool, idleKnown: bool)

  /** What each adapter says it can do; the two flags the scheduler reads. */
  function CanRelease(kind: AdapterKind): bool {
    kind.Ollama? || kind.ComfyUI? || kind.LlamaSwap?
  }

  function CanStop(kind: AdapterKind): bool {
    kind.SystemdUnit?
  }

  /** The adapters that read how much memory their service holds; the others
      report zero and say that it is no measurement. */
  predicate Measures(kind: AdapterKind) {
    kind.Ollama? || kind.ComfyUI?
  }

  /** What Probe of each adapter can come back with. Only a unit can answer that
      it is not up, and only ComfyUI says whether it is idle. */
  predicate CanAnswer(kind: AdapterKind, probe: Probe) {
    match probe
    case Unreachable => true
    case Answered(up, held, idle, known) =>
      && !kind.UnknownAdapter?
      && (up || kind.SystemdUnit?)
      && (known <==> kind.ComfyUI?) && (idle ==> known)
      && (held > 0 ==> Measures(kind))
  }

  /** One probe of each service, each as its adapter can answer it. */
  predicate Answers(services: seq<Service>, probes: seq<Probe>) {
    |probes| == |services| && forall i :: 0 <= i < |probes| ==> CanAnswer(services[i].adapter, probes[i])
  }

  /** Up, holding so much, and with nothing to do where the adapter can tell. */
  function AtRest(kind: AdapterKind, held: u64): Probe {
    Answered(true, held, kind.ComfyUI?, kind.ComfyUI?)
  }

  /** probeOne: identity and permissions from the config, the rest observed. */
  function ProbeOne(svc: Service, probe: Probe): (state: ServiceState)
    ensures state.name == svc.name && state.priority == svc.priority && state.allowStop == svc.allowStop
    ensures state.probeErr <==> probe.Unreachable?
    ensures probe.Unreachable? ==> !state.up && state.heldMiB == 0 && !state.idleKnown
    ensures probe.Answered? ==>
      && state.up == probe.up && state.heldMiB == probe.heldMiB
      && state.idle == probe.idle && state.idleKnown == probe.idleKnown
    ensures state.canRelease == CanRelease(svc.adapter) && state.stopUnit == CanStop(svc.adapter)
    ensures !(state.canRelease && state.stopUnit)
    ensures state.cooldownUntil.None? && !state.actionInFlight
  {
    var base := ServiceState(svc.name, svc.priority, false, 0, CanRelease(svc.adapter), svc.allowStop,
                             CanStop(svc.adapter), false, false, false, None, false);
    match probe
    case Unreachable => base.(probeErr := true)
    case Answered(up, held, idle, known) => base.(up := up, heldMiB := held, idle := idle, idleKnown := known)
  }

  function States(services: seq<Service>, probes: seq<Probe>): (r: seq<ServiceState>)
    requires |probes| == |services|
    ensures |r| == |services|
    ensures forall i :: 0 <= i < |r| ==> r[i] == ProbeOne(services[i], probes[i])
  {
    seq(|services|, i requires 0 <= i < |services| => ProbeOne(services[i], probes[i]))
  }

  function Indices(n: nat): (r: set<nat>)
    ensures forall i: nat :: i in r <==> i < n
  {
    if n == 0 then {} else Indices(n - 1) + {n - 1}
  }

  /** Observe: one goroutine per service fills its own slot, in whatever order
      the probes come back; the result is in config order all the same. */
  method ObserveServices(services: seq<Service>, probes: seq<Probe>) returns (states: array<ServiceState>)
    requires |probes| == |services|
    ensures fresh(states) && states[..] == States(services, probes)
  {
    states := new ServiceState[|services|](_ =>
      ServiceState("", 0, false, 0, false, false, false, false, false, false, None, false));
    var pending := Indices(|services|);
    while pending != {}
      invariant pending <= Indices(|services|)
      invariant states.Length == |services|
      invariant forall i :: 0 <= i < |services| && i !in pending ==> states[i] == ProbeOne(services[i], probes[i])
      decreases pending
    {
      var i :| i in pending;
      states[i] := ProbeOne(services[i], probes[i]);
      pending := pending - {i};
    }
  }
}
