/** The rendition manager itself (media/rendition/manager.go, admission.go), each call run on its own. */
module Managers {
  import opened Common
  import opened Failures
  import opened Lifecycles
  import opened Candidates
  import opened RenditionRuns

  datatype Gate = Gate(limit: nat, used: nat)

  /** The gates by name, each made with its limit when first asked for. */
  class AdmissionRegistry {
    const limits: Limits
    var gates: map<string, Gate>

    constructor (limits: Limits)
      ensures this.limits == limits && gates == map[] && Valid()
    {
      this.limits := limits;
      gates := map[];
    }

    ghost predicate Valid()
      reads this
    {
      forall key :: key in gates ==> gates[key].limit == LimitOf(limits, key) && gates[key].used <= gates[key].limit
    }

    function InUse(key: string): nat
      reads this
    {
      if key in gates then gates[key].used else 0
    }

    predicate Room(key: string)
      reads this
    {
      InUse(key) < LimitOf(limits, key)
    }

    function Uses(): (uses: map<string, nat>)
      reads this
      ensures forall key :: Used(uses, key) == InUse(key)
    {
      map key | key in gates :: gates[key].used
    }

    /** These are the loads, with one token of `taken` gone besides. */
    ghost predicate Loaded(used: map<string, nat>, taken: Option<string>)
      reads this
    {
      forall key :: InUse(key) == Used(used, key) + if taken == Some(key) then 1 else 0
    }

    /** The use of this gate, if any, has changed by `delta`, and no other. */
    twostate predicate Moved(key: Option<string>, delta: int)
      reads this
    {
      forall k :: InUse(k) == old(InUse(k)) + if key == Some(k) then delta else 0
    }

    method GateFor(key: string, limit: nat) returns (gate: Gate)
      requires Valid() && limit == LimitOf(limits, key)
      modifies this
      ensures Valid() && Moved(None, 0) && key in gates && gate == gates[key] && gate.limit == limit
    {
      if key !in gates {
        gates := gates[key := Gate(limit, 0)];
      }
      gate := gates[key];
    }

    /** Takes a token if there is one, at once. */
    method TryAcquire(key: string, limit: nat) returns (ok: bool)
      requires Valid() && limit == LimitOf(limits, key)
      modifies this
      ensures Valid() && ok == old(Room(key)) && Moved(Some(key), if ok then 1 else 0)
    {
      var gate := GateFor(key, limit);
      ok := gate.used < gate.limit;
      if ok {
        gates := gates[key := gate.(used := gate.used + 1)];
      }
    }

    /** Waits for a token: `wait` is what ends the wait, and it cannot be a token when there is none. */
    method Acquire(key: string, limit: nat, wait: Wait) returns (outcome: Wait)
      requires Valid() && limit == LimitOf(limits, key)
      modifies this
      ensures Valid() && outcome == Ending(wait, old(Room(key)))
      ensures Moved(Some(key), if outcome.Granted? then 1 else 0)
    {
      var gate := GateFor(key, limit);
      outcome := Ending(wait, gate.used < gate.limit);
      if outcome.Granted? {
        gates := gates[key := gate.(used := gate.used + 1)];
      }
    }

    method Release(key: string)
      requires Valid() && InUse(key) > 0
      modifies this
      ensures Valid() && Moved(Some(key), -1)
    {
      gates := gates[key := gates[key].(used := gates[key].used - 1)];
    }

    method ReleaseIfAny(key: Option<string>)
      requires Valid() && (key.Some? ==> InUse(key.value) > 0)
      modifies this
      ensures Valid() && Moved(key, -1)
    {
      if key.Some? {
        Release(key.value);
      }
    }
  }

  function Ending(wait: Wait, room: bool): Wait { if wait.Granted? && !room then Expired else wait }

  /** A provider's pipeline: what matters here is how often it was called and closed. */
  class Pipeline {
    var calls: nat
    var closes: nat

    constructor ()
      ensures calls == 0 && closes == 0
    {
      calls, closes := 0, 0;
    }

    method Produce()
      modifies this
      ensures calls == old(calls) + 1 && closes == old(closes)
    {
      calls := calls + 1;
    }

    method Close()
      modifies this
      ensures closes == old(closes) + 1 && calls == old(calls)
    {
      closes := closes + 1;
    }
  }

  /** A whole Segment call on a rendition nobody else is calling. */
  function Served(r: Rendition, reply: Reply): Rendition { if Ended(r.life) then Entered(r) else Left(Entered(r), reply) }

  class ManagedRendition {
    const descriptor: Descriptor
    const init: seq<byte>
    const pipeline: Pipeline
    const lifecycle: GenerationLifecycle
    const registry: AdmissionRegistry
    const gate: Option<string>
    var terminalErr: Option<Failures.Error>
    var released: bool
    ghost var answers: seq<Answer>

    /** The rendition as the machine has it. */
    ghost function View(): Rendition
      reads this, lifecycle, pipeline
    {
      Rendition(descriptor, init, lifecycle.state, terminalErr, false, pipeline.calls, answers)
    }

    /** An unreleased rendition holds its token and its open pipeline; a released one holds neither. */
    ghost predicate Valid()
      reads this, lifecycle, pipeline, registry
    {
      && RenditionOk(View()) && registry.Valid()
      && (!released && gate.Some? ==> registry.InUse(gate.value) > 0)
      && pipeline.closes == if released then 1 else 0
    }

    constructor (descriptor: Descriptor, init: seq<byte>, pipeline: Pipeline, lifecycle: GenerationLifecycle, registry: AdmissionRegistry, gate: Option<string>)
      requires lifecycle.state == Committed && pipeline.closes == 0 && pipeline.calls == 0 && init != []
      requires registry.Valid() && (gate.Some? ==> registry.InUse(gate.value) > 0)
      ensures Valid() && !released && this.pipeline == pipeline && this.lifecycle == lifecycle && this.registry == registry
      ensures this.gate == gate
      ensures View() == Rendition(descriptor, init, Committed, None, false, 0, [])
    {
      this.descriptor, this.init := descriptor, init;
      this.pipeline, this.lifecycle, this.registry, this.gate := pipeline, lifecycle, registry, gate;
      terminalErr, released, answers := None, false, [];
    }

    /** The machine's answer, for a call whose rendition this is. */
    method Init(ghost call: Call) returns (a: Answer)
      requires RenditionOf(call) == Some(View()) && (released <==> !call.phase.Live?)
      ensures Some(a) == InitAnswer(call)
    {
      if released {
        return Released;
      }
      return Bytes(init);
    }

    /** `reply` is what the pipeline would say if asked. */
    method Segment(reply: Reply) returns (a: Answer)
      requires Valid()
      modifies this, lifecycle, pipeline
      ensures Valid() && released == old(released)
      ensures released ==> a == Released && View() == old(View()).(answers := old(answers) + [Released])
      ensures !released ==> View() == Served(old(View()), reply) && answers == old(answers) + [a]
    {
      if released {
        answers := answers + [Released];
        return Released;
      }
      if lifecycle.state == Lifecycles.Failed || lifecycle.state == Complete {
        a := Error(terminalErr.value);
        answers := answers + [a];
        return;
      }
      if lifecycle.state == Committed {
        var ok := lifecycle.Transition(Running);
        assert ok;
      }
      pipeline.Produce();
      match reply {
        case Got(bytes) => a := Bytes(bytes);
        case Missed(error) =>
          var tagged := WithGeneration(error, descriptor.generation);
          a := Error(tagged);
          if CategoryOf(tagged) != Cancelled {
            terminalErr := Some(tagged);
            var next := if Is(tagged, EOF) then Complete else Lifecycles.Failed;
            var ok := lifecycle.Transition(next);
            assert ok;
          }
      }
      answers := answers + [a];
    }

    /** The first release closes the pipeline and gives back the token; later ones do nothing. */
    method Release()
      requires Valid()
      modifies this, pipeline, registry
      ensures Valid() && released && View() == old(View())
      ensures registry.Moved(if old(released) then None else gate, -1)
      ensures pipeline.closes == 1
    {
      if released {
        return;
      }
      released := true;
      pipeline.Close();
      registry.ReleaseIfAny(gate);
    }
  }

  /** What the environment does with one candidate: how a wait ends, what the provider prepares. */
  datatype Attempt = Attempt(wait: Wait, refusal: Option<Failures.Error>, primed: Primed, named: bool, generation: string)

  /** How a candidate fails, if it does. */
  function Fault(k: Candidate, output: OutputContract, a: Attempt, room: bool): Option<Failures.Error> {
    var barred := Barred(k, Ending(a.wait, room), room);
    if barred.Some? then barred
    else if a.refusal.Some? then a.refusal
    else if !(a.primed.contract == output && a.primed.init != [] && a.primed.fingerprint != "") then Some(Invalid(PrimeOutput, BadPriming, k))
    else if !a.named then Some(Nameless(k))
    else None
  }

  /** It failed in the one way that stops the search whatever its category. */
  predicate Fatal(k: Candidate, output: OutputContract, a: Attempt, room: bool) {
    && Barred(k, Ending(a.wait, room), room).None? && a.refusal.None? && !a.named
    && a.primed.contract == output && a.primed.init != [] && a.primed.fingerprint != ""
  }

  // ---------------------------------------------------------------- what a caller can count on

  /** The candidate's gate lets it in: a copy has none, a device needs a free token, the CPU one within the wait. */
  predicate LetIn(limits: Limits, used: map<string, nat>, k: Candidate, a: Attempt) {
    || k.kind == Copy
    || (k.kind == Hardware && Used(used, k.name + "/" + k.device.id) < limits.perDevice)
    || (k.kind == CPU && Used(used, "cpu") < limits.cpu && a.wait == Granted)
  }

  /** What was asked for is what the provider primed. */
  predicate AsAsked(output: OutputContract, p: Primed) { p.contract == output && p.init != [] && p.fingerprint != "" }

  /** A candidate that can be served: let in, prepared, as asked, and given a name. */
  predicate Works(limits: Limits, used: map<string, nat>, k: Candidate, output: OutputContract, a: Attempt) {
    LetIn(limits, used, k, a) && a.refusal.None? && AsAsked(output, a.primed) && a.named
  }

  /** The category under which any other candidate fails. */
  function Reason(limits: Limits, used: map<string, nat>, k: Candidate, a: Attempt): Category {
    if k.kind == Unknown then DeviceUnavailable
    else if FullDevice(limits, used, k) then ResourceExhausted
    else if !LetIn(limits, used, k, a) then (if a.wait.Interrupted? then Cancelled else AdmissionTimeout)
    else if a.refusal.Some? then CategoryOf(a.refusal.value)
    else InvalidOutput
  }

  predicate HasRoom(limits: Limits, used: map<string, nat>, k: Candidate) {
    GateOf(k).Some? && Used(used, GateOf(k).value) < LimitOf(limits, GateOf(k).value)
  }

  lemma FaultExplained(limits: Limits, used: map<string, nat>, k: Candidate, output: OutputContract, a: Attempt)
    ensures var fault := Fault(k, output, a, HasRoom(limits, used, k));
            && (fault.None? <==> Works(limits, used, k, output, a))
            && (fault.Some? ==> CategoryOf(fault.value) == Reason(limits, used, k, a))
  {
    var room := HasRoom(limits, used, k);
    DeviceGateIsItsOwn(k.name, k.device.id);
    BarredExplained(limits, used, k, a, room);
  }

  lemma BarredExplained(limits: Limits, used: map<string, nat>, k: Candidate, a: Attempt, room: bool)
    requires room == HasRoom(limits, used, k)
    ensures var barred := Barred(k, Ending(a.wait, room), room);
            && (barred.None? <==> LetIn(limits, used, k, a))
            && (barred.Some? ==> CategoryOf(barred.value) == Reason(limits, used, k, a))
  {
    DeviceGateIsItsOwn(k.name, k.device.id);
  }

  /** One search: the gates' loads when it starts, the order of trial, and what the environment does with each candidate. */
  datatype Hunt = Hunt(limits: Limits, used: map<string, nat>, output: OutputContract, cands: seq<Candidate>, env: nat -> Attempt)

  predicate WorksAt(h: Hunt, j: nat)
    requires j < |h.cands|
  {
    Works(h.limits, h.used, h.cands[j], h.output, h.env(j))
  }

  function ReasonAt(h: Hunt, j: nat): Category
    requires j < |h.cands|
  {
    Reason(h.limits, h.used, h.cands[j], h.env(j))
  }

  /** What happened to each candidate tried, from gate loads and the providers' answers alone. */
  ghost predicate Explained(h: Hunt, log: seq<Failures.Error>) {
    |log| <= |h.cands| && forall j :: 0 <= j < |log| ==> !WorksAt(h, j) && CategoryOf(log[j]) == ReasonAt(h, j)
  }

  /** The call is about to try candidate `i`, with these failures behind it. */
  ghost predicate Hunting(h: Hunt, c: Call, i: nat, last: Option<Failures.Error>, contention: Option<Failures.Error>) {
    match c
    case Call(output, cands, i', contention', last', log, phase) =>
      && CallOk(c) && phase.Choosing? && i' == i && cands == h.cands && output == h.output
      && last' == last && contention' == contention && Explained(h, log)
  }

  /** The record of a call that ended: in order, explained, and with the answer given. */
  ghost predicate Told(h: Hunt, c: Call, error: Option<Failures.Error>) {
    match c
    case Call(output, cands, i, _, _, log, phase) =>
      && CallOk(c) && output == h.output && cands == h.cands && Explained(h, log)
      && (if error.Some? then phase == Refused(error.value) else phase.Live? && |log| == i < |cands| && WorksAt(h, i))
  }

  lemma HuntStarts(h: Hunt)
    requires Servable(h.output)
    ensures Hunting(h, Began(h.output, h.cands), 0, None, None)
  {
  }

  lemma HuntGoesOn(h: Hunt, c: Call, i: nat, last: Option<Failures.Error>, contention: Option<Failures.Error>, e: Failures.Error, fatal: bool)
    requires Hunting(h, c, i, last, contention) && i < |h.cands| && CallOk(Fail(c, e, fatal))
    requires !WorksAt(h, i) && CategoryOf(e) == ReasonAt(h, i)
    ensures var c' := Fail(c, e, fatal);
            if fatal || !CanFallback(e) then Told(h, c', Some(e))
            else Hunting(h, c', i + 1, Some(e), if Exhausted(h.cands[i], e) then Some(e) else contention)
  {
  }

  lemma ContentionTold(h: Hunt, c: Call, i: nat, last: Option<Failures.Error>, contention: Option<Failures.Error>)
    requires Hunting(h, c, i, last, contention) && i < |h.cands| && h.cands[i].kind == CPU && contention.Some?
    ensures Told(h, ContentionEnds(c), contention)
  {
  }

  lemma ServedTold(h: Hunt, c: Call, i: nat, last: Option<Failures.Error>, contention: Option<Failures.Error>, r: Rendition)
    requires Hunting(h, c, i, last, contention) && i < |h.cands| && (h.cands[i].kind == CPU ==> contention.None?) && WorksAt(h, i)
    requires RenditionOk(r) && Describes(r.desc, h.cands[i], h.output)
    ensures Told(h, ServedCall(c, r), None)
  {
  }

  lemma NoneLeftTold(h: Hunt, c: Call, last: Option<Failures.Error>, contention: Option<Failures.Error>)
    requires Hunting(h, c, |h.cands|, last, contention)
    ensures Told(h, NoneLeft(c), Some(if last.Some? then last.value else NothingOffered))
  {
  }

  /** The search got past everything it logged. */
  ghost predicate PastAll(cands: seq<Candidate>, log: seq<Failures.Error>) {
    |log| <= |cands| && forall j :: 0 <= j < |log| ==> CanFallback(log[j]) && log[j] != Nameless(cands[j])
  }

  /**
   If a device tried had its gate full, the call does not end with the CPU: no CPU rendition comes back, and
   a call that gets as far as the CPU is refused with an exhaustion.
   */
  ghost predicate FullDeviceHonoured(limits: Limits, used: map<string, nat>, call: Call, error: Option<Failures.Error>) {
    (exists j :: 0 <= j < |call.log| && j < |call.cands| && FullDevice(limits, used, call.cands[j])) ==>
      && (error.None? ==> call.i < |call.cands| && call.cands[call.i].kind != CPU)
      && (PastAll(call.cands, call.log) && |call.log| < |call.cands| && call.cands[|call.log|].kind == CPU ==>
            error.Some? && CategoryOf(error.value) == ResourceExhausted)
  }

  lemma ContentionHonoured(h: Hunt, call: Call, error: Option<Failures.Error>)
    requires Servable(h.output) && Told(h, call, error)
    ensures FullDeviceHonoured(h.limits, h.used, call, error)
  {
    if j :| 0 <= j < |call.log| && FullDevice(h.limits, h.used, call.cands[j]) {
      assert CategoryOf(call.log[j]) == ReasonAt(h, j);
      assert Exhausted(call.cands[j], call.log[j]);
    }
  }

  /** A call whose candidate is served. */
  ghost function ServedCall(c: Call, r: Rendition): (c': Call)
    requires CallOk(c) && c.phase.Choosing? && c.i < |c.cands| && (c.cands[c.i].kind == CPU ==> c.contention.None?)
    requires RenditionOk(r) && Describes(r.desc, c.cands[c.i], c.output)
    ensures CallOk(c') && c'.phase.Live? && c'.phase.r == r && GateAt(c') == GateOf(c.cands[c.i])
    ensures c'.output == c.output && c'.cands == c.cands && c'.i == c.i && c'.log == c.log
  {
    c.(phase := Live(0, r))
  }

  /** The allow-list: each identity at the position it is first named. */
  method Ranks(order: seq<string>) returns (ranks: map<string, nat>)
    ensures forall x :: x in ranks <==> x in order
    ensures forall x :: x in ranks ==> ranks[x] < |order| && order[ranks[x]] == x && x !in order[..ranks[x]]
  {
    ranks := map[];
    for i := 0 to |order|
      invariant forall x :: x in ranks <==> x in order[..i]
      invariant forall x :: x in ranks ==> ranks[x] < i && order[ranks[x]] == x && x !in order[..ranks[x]]
    {
      if order[i] !in ranks {
        ranks := ranks[order[i] := i];
      }
    }
    assert order[..|order|] == order;
  }

  class VideoRenditionManager {
    const providers: seq<Provider>
    const ranks: map<string, nat>
    const registry: AdmissionRegistry

    constructor (order: seq<string>, perDevice: int, cpu: int, providers: seq<Provider>)
      ensures this.providers == providers && fresh(registry) && registry.Valid() && registry.gates == map[]
      ensures registry.limits == Limits(if perDevice <= 0 then 1 else perDevice, if cpu <= 0 then 1 else cpu)
      ensures forall x :: x in ranks <==> x in order
      ensures forall x :: x in ranks ==> ranks[x] < |order| && order[ranks[x]] == x && x !in order[..ranks[x]]
    {
      this.providers := providers;
      var ranks := Ranks(order);
      this.ranks := ranks;
      registry := new AdmissionRegistry(Limits(if perDevice <= 0 then 1 else perDevice, if cpu <= 0 then 1 else cpu));
    }

    function RoomFor(k: Candidate): bool
      reads registry
    {
      GateOf(k).Some? && registry.Room(GateOf(k).value)
    }

    /** Admission: a copy passes, a device takes a token or is busy, the CPU waits for one. */
    method Admit(k: Candidate, wait: Wait) returns (barred: Option<Failures.Error>)
      requires registry.Valid()
      modifies registry
      ensures registry.Valid() && barred == Barred(k, Ending(wait, old(RoomFor(k))), old(RoomFor(k)))
      ensures registry.Moved(if barred.Some? then None else GateOf(k), 1)
      ensures k.kind == Hardware ==> (barred.Some? <==> old(registry.InUse(k.name + "/" + k.device.id)) >= registry.limits.perDevice)
      ensures k.kind == Hardware && barred.Some? ==> CategoryOf(barred.value) == ResourceExhausted
      ensures k.kind == CPU ==> (barred.None? <==> wait == Granted && old(registry.InUse("cpu")) < registry.limits.cpu)
      ensures k.kind == CPU && barred.Some? ==> CategoryOf(barred.value) == if wait.Interrupted? then Cancelled else AdmissionTimeout
      ensures k.kind == Copy ==> barred.None?
    {
      DeviceGateIsItsOwn(k.name, k.device.id);
      match k.kind {
        case Copy => barred := None;
        case CPU =>
          var outcome := registry.Acquire("cpu", registry.limits.cpu, wait);
          barred := Barred(k, outcome, outcome.Granted?);
        case Hardware =>
          var key := Identity(k.name, k.device.id);
          DeviceGateIsItsOwn(k.name, k.device.id);
          var ok := registry.TryAcquire(key, registry.limits.perDevice);
          barred := Barred(k, wait, ok);
        case Unknown => barred := Barred(k, wait, false);
      }
    }

    /** A failed candidate: its pipeline is closed if there is one, and its token goes back. */
    method BackOut(pipeline: Pipeline, gate: Option<string>)
      requires registry.Valid() && (gate.Some? ==> registry.InUse(gate.value) > 0) && pipeline.closes == 0
      modifies registry, pipeline
      ensures registry.Valid() && registry.Moved(gate, -1) && pipeline.closes == 1
    {
      pipeline.Close();
      registry.ReleaseIfAny(gate);
    }

    /** One candidate: on failure every gate is as before and the pipeline, if made, closed once. */
    method TryCandidate(k: Candidate, output: OutputContract, a: Attempt)
      returns (fault: Option<Failures.Error>, fatal: bool, rendition: ManagedRendition?, made: Pipeline?)
      requires registry.Valid()
      modifies registry
      ensures registry.Valid() && fault == Fault(k, output, a, old(RoomFor(k))) && fatal == Fatal(k, output, a, old(RoomFor(k)))
      ensures made != null ==> fresh(made) && made.closes == if fault.Some? then 1 else 0
      ensures fault.Some? ==> rendition == null && registry.Moved(None, 0)
      ensures fault.None? ==>
                && rendition != null && fresh(rendition) && fresh(rendition.lifecycle) && rendition.Valid() && !rendition.released
                && rendition.pipeline == made && rendition.registry == registry && rendition.gate == GateOf(k)
                && rendition.View() == Rendition(Described(k, a.primed, a.generation), a.primed.init, Committed, None, false, 0, [])
                && Describes(rendition.descriptor, k, output) && registry.Moved(GateOf(k), 1)
    {
      fatal, rendition, made := false, null, null;
      fault := Admit(k, a.wait);
      if fault.Some? {
        return;
      }
      assert GateOf(k).Some? ==> registry.InUse(GateOf(k).value) > 0;
      var lifecycle := new GenerationLifecycle();
      if a.refusal.Some? {
        fault := a.refusal;
        registry.ReleaseIfAny(GateOf(k));
        return;
      }
      made := new Pipeline();
      var ok := lifecycle.Transition(CandidatePrepared);
      assert ok;
      if a.primed.contract != output || a.primed.init == [] || a.primed.fingerprint == "" {
        fault := Some(Invalid(PrimeOutput, BadPriming, k));
        BackOut(made, GateOf(k));
        return;
      }
      ok := lifecycle.Transition(Lifecycles.Primed);
      assert ok;
      if !a.named {
        fault, fatal := Some(Nameless(k)), true;
        BackOut(made, GateOf(k));
        return;
      }
      ok := lifecycle.Transition(Committed);
      assert ok;
      rendition := new ManagedRendition(Described(k, a.primed, a.generation), a.primed.init, made, lifecycle, registry, GateOf(k));
    }

    /** Nothing is held, and every pipeline made so far is closed. */
    ghost predicate Clean(made: set<Pipeline>, used: map<string, nat>)
      reads registry, made
    {
      registry.Valid() && registry.Loaded(used, None) && ClosedBut(made, null)
    }

    /** One candidate, and the pipelines made so far. */
    method TryNext(h: Hunt, i: nat, ghost made: set<Pipeline>)
      returns (fault: Option<Failures.Error>, fatal: bool, rendition: ManagedRendition?, ghost made': set<Pipeline>)
      requires i < |h.cands| && h.limits == registry.limits && Clean(made, h.used)
      modifies registry
      ensures made <= made' && fresh(made' - made)
      ensures match fault
              case Some(e) =>
                && !WorksAt(h, i) && CategoryOf(e) == ReasonAt(h, i) && (fatal ==> e == Nameless(h.cands[i])) && Clean(made', h.used)
              case None => WorksAt(h, i) && rendition != null && fresh(rendition) && Holds(rendition, h.cands[i], h, made')
    {
      FaultExplained(h.limits, h.used, h.cands[i], h.output, h.env(i));
      var pipeline;
      fault, fatal, rendition, pipeline := TryCandidate(h.cands[i], h.output, h.env(i));
      made' := if pipeline != null then made + {pipeline} else made;
    }

    /** This rendition alone holds a token, of its candidate's gate, and an open pipeline. */
    ghost predicate Holds(rendition: ManagedRendition, k: Candidate, h: Hunt, made: set<Pipeline>)
      reads rendition, rendition.lifecycle, rendition.pipeline, rendition.registry, registry, made
    {
      && rendition.Valid() && !rendition.released && rendition.registry == registry
      && rendition.gate == GateOf(k) && Describes(rendition.descriptor, k, h.output)
      && rendition.pipeline in made && ClosedBut(made, rendition.pipeline)
      && registry.Loaded(h.used, rendition.gate)
    }

    /** How a call came out: an error and nothing held, or the rendition its record has. */
    ghost predicate CameOut(error: Option<Failures.Error>, rendition: ManagedRendition?, h: Hunt, call: Call, made: set<Pipeline>)
      reads registry, made, rendition, if rendition == null then {} else {rendition.lifecycle, rendition.pipeline, rendition.registry}
    {
      match error
      case Some(_) => Clean(made, h.used)
      case None => rendition != null && call.phase.Live? && rendition.View() == call.phase.r && call.i < |h.cands| && Holds(rendition, h.cands[call.i], h, made)
    }

    /** One turn of the loop over the candidates: an answer, or on to the next. */
    method Turn(h: Hunt, i: nat, last: Option<Failures.Error>, contention: Option<Failures.Error>, ghost call: Call, ghost made: set<Pipeline>)
      returns (done: bool, error: Option<Failures.Error>, rendition: ManagedRendition?, last': Option<Failures.Error>, contention': Option<Failures.Error>,
               ghost call': Call, ghost made': set<Pipeline>)
      requires i < |h.cands| && h.limits == registry.limits && Clean(made, h.used) && Hunting(h, call, i, last, contention)
      modifies registry
      ensures made <= made' && fresh(made' - made)
      ensures done ==> Told(h, call', error) && CameOut(error, rendition, h, call', made') && (rendition != null ==> fresh(rendition))
      ensures !done ==> Hunting(h, call', i + 1, last', contention') && Clean(made', h.used)
    {
      var k := h.cands[i];
      rendition, last', contention', call', made' := null, last, contention, call, made;
      if k.kind == CPU && contention.Some? {
        ContentionTold(h, call, i, last, contention);
        done, error, call' := true, contention, ContentionEnds(call);
        return;
      }
      var fatal;
      error, fatal, rendition, made' := TryNext(h, i, made);
      if error.None? {
        ServedTold(h, call, i, last, contention, rendition.View());
        done, call' := true, ServedCall(call, rendition.View());
        return;
      }
      FailOk(call, error.value, fatal);
      HuntGoesOn(h, call, i, last, contention, error.value, fatal);
      last', done, rendition, call' := error, fatal || !CanFallback(error.value), null, Fail(call, error.value, fatal);
      if k.kind == Hardware && CategoryOf(error.value) == ResourceExhausted {
        contention' := error;
      }
    }

    method Search(h: Hunt)
      returns (error: Option<Failures.Error>, rendition: ManagedRendition?, ghost call: Call, ghost made: set<Pipeline>)
      requires registry.Valid() && h.limits == registry.limits && registry.Loaded(h.used, None) && Servable(h.output)
      modifies registry
      ensures fresh(made) && (rendition != null ==> fresh(rendition))
      ensures Told(h, call, error) && CameOut(error, rendition, h, call, made)
    {
      rendition, made, call := null, {}, Began(h.output, h.cands);
      HuntStarts(h);
      var lastFailure: Option<Failures.Error>, hardwareContention: Option<Failures.Error> := None, None;
      for i := 0 to |h.cands|
        invariant fresh(made) && Clean(made, h.used) && Hunting(h, call, i, lastFailure, hardwareContention)
      {
        var done;
        done, error, rendition, lastFailure, hardwareContention, call, made := Turn(h, i, lastFailure, hardwareContention, call, made);
        if done {
          return;
        }
      }
      NoneLeftTold(h, call, lastFailure, hardwareContention);
      error, rendition, call := Some(if lastFailure.Some? then lastFailure.value else NothingOffered), null, NoneLeft(call);
    }

    /**
     Acquire. `env` is what happens to the i-th candidate tried and `call` the machine's record of the call:
     which candidate is served, after which failures, or why none is.
     */
    method Acquire(output: OutputContract, env: nat -> Attempt)
      returns (error: Option<Failures.Error>, rendition: ManagedRendition?, ghost call: Call, ghost made: set<Pipeline>)
      requires registry.Valid()
      modifies registry
      ensures fresh(made) && (rendition != null ==> fresh(rendition))
      ensures var h := Hunt(registry.limits, old(registry.Uses()), output, call.cands, env);
              && Told(h, call, error) && CameOut(error, rendition, h, call, made)
              && (Servable(output) ==> Ordered(h.used, h.cands) && FullDeviceHonoured(h.limits, h.used, call, error))
    {
      ghost var used := registry.Uses();
      if !Servable(output) {
        error, rendition := Some(NewFailure(InvalidOutput, "", "", Validate, Plain(BadContract))), null;
        call, made := Began(output, []), {};
        return;
      }
      var cands := ListCandidates(Policy(ranks, registry.Uses()), providers);
      var h := Hunt(registry.limits, registry.Uses(), output, cands, env);
      error, rendition, call, made := Search(h);
      ContentionHonoured(h, call, error);
    }

    ghost predicate Ordered(uses: map<string, nat>, cands: seq<Candidate>) {
      IsStableSort(Policy(ranks, uses), Offered(Policy(ranks, uses), providers, |providers|), cands)
    }
  }

  ghost predicate ClosedBut(made: set<Pipeline>, open: Pipeline?)
    reads made
  {
    forall p :: p in made ==> p.closes == if p == open then 0 else 1
  }

  /** The CPU is not tried after a device reported exhaustion. */
  ghost function ContentionEnds(c: Call): (c': Call)
    requires CallOk(c) && c.phase.Choosing? && c.i < |c.cands| && c.cands[c.i].kind == CPU && c.contention.Some?
    ensures CallOk(c') && c'.phase == Refused(c.contention.value) && c'.output == c.output && c'.cands == c.cands && c'.log == c.log
  {
    c.(phase := Refused(c.contention.value))
  }

  ghost function NoneLeft(c: Call): (c': Call)
    requires CallOk(c) && c.phase.Choosing? && c.i == |c.cands|
    ensures CallOk(c') && c'.phase == Refused(if c.last.Some? then c.last.value else NothingOffered)
    ensures c'.output == c.output && c'.cands == c.cands && c'.log == c.log
  {
    c.(phase := Refused(if c.last.Some? then c.last.value else NothingOffered))
  }
}
