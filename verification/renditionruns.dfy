/**
 Acquiring, using and releasing renditions as a machine (media/rendition/manager.go, admission.go). Any
 number of Acquire calls run at once; each step is one that other calls can come between: passing a gate,
 a provider's answer, closing a pipeline, giving a token back, entering and leaving Segment.
 */
module RenditionRuns {
  import opened Common
  import opened Failures
  import opened Lifecycles
  import opened Candidates

  type CallId = nat
  type PipeId = nat

  datatype Answer = Bytes(bytes: seq<byte>) | Error(error: Failures.Error) | Released

  datatype Primed = Primed(contract: OutputContract, init: seq<byte>, fingerprint: string)

  /** What a caller is told about a generation. */
  datatype Descriptor = Descriptor(generation: string, output: OutputContract, bandwidth: int, provider: string, device: string, fingerprint: string)

  /** A committed generation. `invoked` counts the calls of its pipeline and `answers` is what Segment said. */
  datatype Rendition = Rendition(desc: Descriptor, init: seq<byte>, life: Generation,
    terminal: Option<Failures.Error>, busy: bool, invoked: nat, answers: seq<Answer>)

  datatype Phase =
    | Choosing
    | Preparing
    | Priming(pipe: PipeId, primed: Primed)
    | Backing(held: Option<PipeId>, why: Failures.Error, fatal: bool)
    | Refused(error: Failures.Error)
    | Live(pipe: PipeId, r: Rendition)
    | Draining(held: Option<PipeId>, r: Rendition)
    | Gone(r: Rendition)

  /** One Acquire call and the rendition it returns. `log` is how each candidate tried so far failed. */
  datatype Call = Call(output: OutputContract, cands: seq<Candidate>, i: nat,
    contention: Option<Failures.Error>, last: Option<Failures.Error>, log: seq<Failures.Error>, phase: Phase)

  datatype Pipe = Pipe(owner: CallId, closes: nat)

  datatype State = State(used: map<string, nat>, calls: map<CallId, Call>, pipes: map<PipeId, Pipe>)

  const Init := State(map[], map[], map[])

  datatype Wait = Granted | Expired | Interrupted(error: Failures.Error)

  datatype Outcome = Built(pipe: PipeId, primed: Primed) | NotBuilt(error: Failures.Error)

  datatype Reply = Got(bytes: seq<byte>) | Missed(error: Failures.Error)

  datatype Step =
    | Start(output: OutputContract, cands: seq<Candidate>)
    | Admit(wait: Wait)
    | Prepare(outcome: Outcome)
    | Prime(named: bool, generation: string)
    | Back
    | Enter
    | Leave(reply: Reply)
    | Release
    | Drain

  // ---------------------------------------------------------------- serving segments

  function MoveTo(g: Generation, next: Generation): Generation { if Allowed(g, next) then next else g }

  /** Segment up to the pipeline call: an ended generation repeats its error and calls nothing. */
  function Entered(r: Rendition): Rendition {
    if Ended(r.life) then
      r.(answers := r.answers + if r.terminal.Some? then [Error(r.terminal.value)] else [])
    else
      r.(life := if r.life == Committed then MoveTo(r.life, Running) else r.life, busy := true, invoked := r.invoked + 1)
  }

  /** Segment from the pipeline's reply on. */
  function Left(r: Rendition, reply: Reply): Rendition {
    match reply
    case Got(bytes) => r.(busy := false, answers := r.answers + [Bytes(bytes)])
    case Missed(error) =>
      var tagged := WithGeneration(error, r.desc.generation);
      var r' := r.(busy := false, answers := r.answers + [Error(tagged)]);
      if CategoryOf(tagged) == Cancelled then r'
      else r'.(terminal := Some(tagged), life := MoveTo(r.life, if Is(tagged, EOF) then Complete else Lifecycles.Failed))
  }

  // ---------------------------------------------------------------- one call's step

  function Exhausted(c: Candidate, e: Failures.Error): bool { c.kind == Hardware && CategoryOf(e) == ResourceExhausted }

  /** A candidate failed and holds nothing any more: try the next, or give up. */
  function Fail(c: Call, e: Failures.Error, fatal: bool): Call
    requires c.i < |c.cands|
  {
    var noted := c.(
      last := Some(e),
      contention := if Exhausted(c.cands[c.i], e) then Some(e) else c.contention,
      log := c.log + [e]);
    if !fatal && CanFallback(e) then noted.(i := c.i + 1, phase := Choosing) else noted.(phase := Refused(e))
  }

  datatype Effect = Effect(call: Call, take: Option<string>, free: Option<string>, open: Option<PipeId>, shut: Option<PipeId>)

  function Only(c: Call): Effect { Effect(c, None, None, None, None) }

  function Invalid(stage: Where, what: Root, c: Candidate): Failures.Error {
    NewFailure(InvalidOutput, c.name, c.device.id, stage, Plain(what))
  }

  /** How admission turns a candidate away, if it does: a device at once, the CPU after a wait. */
  function Barred(k: Candidate, wait: Wait, room: bool): Option<Failures.Error> {
    match k.kind
    case Copy => None
    case Hardware =>
      if room then None else Some(NewFailure(ResourceExhausted, k.name, k.device.id, Admission, Plain(CapacityBusy)))
    case CPU => (
      match wait
      case Granted => None
      case Expired => Some(NewFailure(AdmissionTimeout, k.name, k.device.id, Admission, Plain(WaitExpired)))
      case Interrupted(e) => Some(NewFailure(Cancelled, k.name, k.device.id, Admission, e)))
    case Unknown => Some(NewFailure(DeviceUnavailable, k.name, k.device.id, Admission, Plain(UnknownKind)))
  }

  /** A CPU candidate is granted a token only when there is one; until then it waits. */
  predicate Waits(k: Candidate, wait: Wait, room: bool) { k.kind == CPU && wait == Granted && !room }

  /** The one failure that ends the search though it is classed as invalid output: no name for the generation. */
  function Nameless(k: Candidate): Failures.Error { Invalid(Commit, NoRandomness, k) }

  function AdmitOne(c: Call, wait: Wait, room: bool): Effect
    requires c.i < |c.cands|
  {
    var k := c.cands[c.i];
    if Waits(k, wait, room) then Only(c)
    else
      match Barred(k, wait, room)
      case Some(e) => Only(Fail(c, e, false))
      case None => Effect(c.(phase := Preparing), GateOf(k), None, None, None)
  }

  const NothingOffered := NewFailure(DeviceUnavailable, "", "", Discover, Plain(Root.NoProvider))

  function Admitted(c: Call, wait: Wait, room: bool): Effect {
    if c.i >= |c.cands| then Only(c.(phase := Refused(if c.last.Some? then c.last.value else NothingOffered)))
    else if c.cands[c.i].kind == CPU && c.contention.Some? then Only(c.(phase := Refused(c.contention.value)))
    else AdmitOne(c, wait, room)
  }

  function GateAt(c: Call): Option<string> { if c.i < |c.cands| then GateOf(c.cands[c.i]) else None }

  function PrimedOk(c: Call, p: Primed): bool { p.contract == c.output && p.init != [] && p.fingerprint != "" }

  function Prepared(c: Call, outcome: Outcome): Effect
  {
    match outcome
    case NotBuilt(e) => Only(c.(phase := Backing(None, e, false)))
    case Built(pipe, primed) => Effect(c.(phase := Priming(pipe, primed)), None, None, Some(pipe), None)
  }

  function Committing(c: Call, named: bool, generation: string): Effect
    requires c.phase.Priming? && c.i < |c.cands|
  {
    var p := c.phase.primed;
    var k := c.cands[c.i];
    if !PrimedOk(c, p) then Only(c.(phase := Backing(Some(c.phase.pipe), Invalid(PrimeOutput, BadPriming, k), false)))
    else if !named then Only(c.(phase := Backing(Some(c.phase.pipe), Nameless(k), true)))
    else Only(c.(phase := Live(c.phase.pipe, Rendition(Described(k, p, generation), p.init, Committed, None, false, 0, []))))
  }

  function Described(k: Candidate, p: Primed, generation: string): Descriptor {
    Descriptor(generation, p.contract, p.contract.rate.max * 11 / 10, k.name, k.device.id, p.fingerprint)
  }

  /** Release under way: the pipeline is closed, then the token goes back. */
  function Drained(c: Call): Effect
    requires c.phase.Draining?
  {
    if c.phase.held.Some? then Effect(c.(phase := Draining(None, c.phase.r)), None, None, None, c.phase.held)
    else Effect(c.(phase := Gone(c.phase.r)), None, GateAt(c), None, None)
  }

  /** What a step does to its call. `room`: the gate of the candidate at hand has a token left. */
  function Local(c: Call, step: Step, room: bool): Effect {
    match (step, c.phase)
    case (Admit(wait), Choosing) => Admitted(c, wait, room)
    case (Prepare(outcome), Preparing) => Prepared(c, outcome)
    case (Prime(named, generation), Priming(_, _)) => if c.i < |c.cands| then Committing(c, named, generation) else Only(c)
    case (Back, Backing(Some(p), e, fatal)) => Effect(c.(phase := Backing(None, e, fatal)), None, None, None, Some(p))
    case (Back, Backing(None, e, fatal)) =>
      if c.i < |c.cands| then Effect(Fail(c, e, fatal), None, GateAt(c), None, None) else Only(c)
    case (Enter, Live(p, r)) => if r.busy then Only(c) else Only(c.(phase := Live(p, Entered(r))))
    case (Enter, Gone(r)) => Only(c.(phase := Gone(r.(answers := r.answers + [Released]))))
    case (Leave(reply), Live(p, r)) => if r.busy then Only(c.(phase := Live(p, Left(r, reply)))) else Only(c)
    case (Release, Live(p, r)) => if r.busy then Only(c) else Only(c.(phase := Draining(Some(p), r)))
    case (Drain, Draining(_, _)) => Drained(c)
    case _ => Only(c)
  }

  // ---------------------------------------------------------------- all calls together

  function Began(output: OutputContract, cands: seq<Candidate>): Call {
    var phase := if Servable(output) then Choosing
                 else Refused(NewFailure(InvalidOutput, "", "", Validate, Plain(BadContract)));
    Call(output, cands, 0, None, None, [], phase)
  }

  function Room(limits: Limits, s: State, c: Call): bool {
    GateAt(c).Some? && Used(s.used, GateAt(c).value) < LimitOf(limits, GateAt(c).value)
  }

  function Changed(used: map<string, nat>, take: Option<string>, free: Option<string>): map<string, nat> {
    if take.Some? then used[take.value := Used(used, take.value) + 1]
    else if free.Some? && Used(used, free.value) > 0 then used[free.value := Used(used, free.value) - 1]
    else used
  }

  function Piped(pipes: map<PipeId, Pipe>, id: CallId, open: Option<PipeId>, shut: Option<PipeId>): map<PipeId, Pipe> {
    if open.Some? then pipes[open.value := Pipe(id, 0)]
    else if shut.Some? && shut.value in pipes then
      pipes[shut.value := pipes[shut.value].(closes := pipes[shut.value].closes + 1)]
    else pipes
  }

  function Apply(s: State, id: CallId, e: Effect): State {
    State(Changed(s.used, e.take, e.free), s.calls[id := e.call], Piped(s.pipes, id, e.open, e.shut))
  }

  /** A pipeline is a new object each time. */
  predicate Fresh(s: State, step: Step) { step.Prepare? && step.outcome.Built? ==> step.outcome.pipe !in s.pipes }

  function Next(limits: Limits, s: State, id: CallId, step: Step): State {
    if id !in s.calls then
      if step.Start? then s.(calls := s.calls[id := Began(step.output, step.cands)]) else s
    else if !Fresh(s, step) then s
    else Apply(s, id, Local(s.calls[id], step, Room(limits, s, s.calls[id])))
  }

  datatype Event = Event(id: CallId, step: Step)

  function Run(limits: Limits, s: State, events: seq<Event>): State
    decreases |events|
  {
    if events == [] then s else Run(limits, Next(limits, s, events[0].id, events[0].step), events[1..])
  }

  // ---------------------------------------------------------------- what every step keeps

  predicate Holding(p: Phase) { p.Preparing? || p.Priming? || p.Backing? || p.Live? || p.Draining? }

  /** The gate whose token a call holds. */
  function Token(c: Call): Option<string> { if Holding(c.phase) then GateAt(c) else None }

  /** The open pipeline a call holds. */
  function PipeOf(c: Call): Option<PipeId> {
    match c.phase
    case Priming(p, _) => Some(p)
    case Live(p, _) => Some(p)
    case Backing(held, _, _) => held
    case Draining(held, _) => held
    case _ => None
  }

  function RenditionOf(c: Call): Option<Rendition> {
    match c.phase
    case Live(_, r) => Some(r)
    case Draining(_, r) => Some(r)
    case Gone(r) => Some(r)
    case _ => None
  }

  predicate RenditionOk(r: Rendition) {
    && (r.life == Committed || r.life == Running || Ended(r.life))
    && (Ended(r.life) <==> r.terminal.Some?)
    && (r.busy ==> r.life == Running)
    && r.init != []
  }

  /** The candidates before the one at hand all failed, in order, in ways that allow another. */
  predicate Searched(cands: seq<Candidate>, i: nat, contention: Option<Failures.Error>, last: Option<Failures.Error>, log: seq<Failures.Error>) {
    && |log| == i <= |cands|
    && (forall j :: 0 <= j < |log| ==> CanFallback(log[j]))
    && (contention.None? <==> forall j :: 0 <= j < |log| ==> !Exhausted(cands[j], log[j]))
    && (contention.Some? ==> contention.value in log && CategoryOf(contention.value) == ResourceExhausted)
    && last == (if log == [] then None else Some(log[|log| - 1]))
  }

  predicate TriedInOrder(c: Call) { Searched(c.cands, c.i, c.contention, c.last, c.log) }

  /** Why a call may be refused. */
  predicate RefusalOk(c: Call, e: Failures.Error) {
    && |c.log| <= |c.cands|
    && (|| (!Servable(c.output) && c.log == [] && CategoryOf(e) == InvalidOutput)
        || (c.cands == [] && CategoryOf(e) == DeviceUnavailable)
        || (0 < |c.log| == |c.cands| && e == c.log[|c.log| - 1])
        || (|c.log| < |c.cands| && c.cands[|c.log|].kind == CPU && e in c.log && CategoryOf(e) == ResourceExhausted)
        || (0 < |c.log| && e == c.log[|c.log| - 1] && (CategoryOf(e) == Cancelled || CategoryOf(e) == SourceIO || e == Nameless(c.cands[|c.log| - 1]))))
    && forall j :: 0 <= j < |c.log| - 1 ==> CanFallback(c.log[j])
  }

  /** The descriptor names the candidate and the contract asked for. */
  predicate Describes(d: Descriptor, k: Candidate, output: OutputContract) {
    && d.output == output && d.bandwidth == output.rate.max * 11 / 10
    && d.provider == k.name && d.device == k.device.id && d.fingerprint != ""
  }

  predicate CallOk(c: Call) {
    match c
    case Call(output, cands, i, contention, last, log, phase) =>
      if phase.Refused? then RefusalOk(c, phase.error)
      else
        && Searched(cands, i, contention, last, log) && Servable(output)
        && (phase.Choosing? || (i < |cands| && (cands[i].kind == CPU ==> contention.None?)))
        && (phase.Backing? && phase.fatal ==> phase.why == Nameless(cands[i]))
        && (RenditionOf(c).Some? ==> RenditionOk(RenditionOf(c).value) && Describes(RenditionOf(c).value.desc, cands[i], output))
        && (phase.Draining? || phase.Gone? ==> !RenditionOf(c).value.busy)
  }

  function Holders(s: State, gate: string): set<CallId> { set id | id in s.calls && Token(s.calls[id]) == Some(gate) }

  ghost predicate TokensOk(limits: Limits, s: State) {
    forall gate :: Used(s.used, gate) == |Holders(s, gate)| <= LimitOf(limits, gate)
  }

  ghost predicate PipesOk(s: State) {
    && (forall id :: id in s.calls && PipeOf(s.calls[id]).Some? ==>
          PipeOf(s.calls[id]).value in s.pipes && s.pipes[PipeOf(s.calls[id]).value].owner == id)
    && (forall p :: p in s.pipes ==>
          && s.pipes[p].owner in s.calls && s.pipes[p].closes <= 1
          && (s.pipes[p].closes == 0 <==> PipeOf(s.calls[s.pipes[p].owner]) == Some(p)))
  }

  ghost predicate Inv(limits: Limits, s: State) {
    TokensOk(limits, s) && PipesOk(s) && forall id :: id in s.calls ==> CallOk(s.calls[id])
  }

  // ---------------------------------------------------------------- local facts

  lemma FailOk(c: Call, e: Failures.Error, fatal: bool)
    requires TriedInOrder(c) && Servable(c.output) && c.i < |c.cands|
    requires fatal ==> e == Nameless(c.cands[c.i])
    ensures CallOk(Fail(c, e, fatal)) && Token(Fail(c, e, fatal)) == None && PipeOf(Fail(c, e, fatal)) == None
  {
    var c' := Fail(c, e, fatal);
    assert c'.log[|c'.log| - 1] == e;
    assert forall j :: 0 <= j < |c.log| ==> c'.log[j] == c.log[j];
  }

  /** The token moves as the effect says. */
  predicate TokenMoves(c: Call, e: Effect, room: bool) {
    if e.take.Some? then room && Token(c) == None && Token(e.call) == e.take && e.free == None
    else Token(e.call) == (if e.free.Some? then None else Token(c)) && (e.free.Some? ==> Token(c) == e.free)
  }

  /** So does the pipeline. */
  predicate PipeMoves(c: Call, e: Effect) {
    if e.open.Some? then PipeOf(c) == None && PipeOf(e.call) == e.open && e.shut == None
    else PipeOf(e.call) == (if e.shut.Some? then None else PipeOf(c)) && (e.shut.Some? ==> PipeOf(c) == e.shut)
  }

  ghost predicate EffectOk(c: Call, e: Effect, room: bool) {
    CallOk(e.call) && TokenMoves(c, e, room) && PipeMoves(c, e)
  }

  /** A call that keeps its candidate keeps its token and its record. */
  lemma KeepsHolding(c: Call, phase: Phase)
    requires CallOk(c) && Holding(c.phase) && (phase.Priming? || phase.Backing? || phase.Live?)
    requires phase.Backing? && phase.fatal ==> phase.why == Nameless(c.cands[c.i])
    requires phase.Live? ==> RenditionOk(phase.r) && Describes(phase.r.desc, c.cands[c.i], c.output)
    ensures CallOk(c.(phase := phase)) && Token(c.(phase := phase)) == Token(c)
  {
  }

  lemma TakeOk(c: Call, wait: Wait, room: bool)
    requires CallOk(c) && c.phase.Choosing? && c.i < |c.cands| && (c.cands[c.i].kind == CPU ==> c.contention.None?)
    requires !Waits(c.cands[c.i], wait, room) && Barred(c.cands[c.i], wait, room) == None
    ensures EffectOk(c, Effect(c.(phase := Preparing), GateAt(c), None, None, None), room)
  {
  }

  lemma AdmitOneOk(c: Call, wait: Wait, room: bool)
    requires CallOk(c) && c.phase.Choosing? && c.i < |c.cands| && (c.cands[c.i].kind == CPU ==> c.contention.None?)
    ensures EffectOk(c, AdmitOne(c, wait, room), room)
  {
    var barred := Barred(c.cands[c.i], wait, room);
    if barred.Some? {
      FailOk(c, barred.value, false);
    } else if !Waits(c.cands[c.i], wait, room) {
      TakeOk(c, wait, room);
    }
  }

  lemma AdmitOk(c: Call, wait: Wait, room: bool)
    requires CallOk(c) && c.phase.Choosing?
    ensures EffectOk(c, Admitted(c, wait, room), room)
  {
    if c.i < |c.cands| && (c.cands[c.i].kind == CPU ==> c.contention.None?) {
      AdmitOneOk(c, wait, room);
    }
  }

  lemma PrepareOk(c: Call, outcome: Outcome, room: bool)
    requires CallOk(c) && c.phase.Preparing?
    ensures EffectOk(c, Prepared(c, outcome), room)
  {
    KeepsHolding(c, Prepared(c, outcome).call.phase);
  }

  lemma PrimeOk(c: Call, named: bool, generation: string, room: bool)
    requires CallOk(c) && c.phase.Priming?
    ensures EffectOk(c, Committing(c, named, generation), room)
  {
    KeepsHolding(c, Committing(c, named, generation).call.phase);
  }

  lemma BackOk(c: Call, room: bool)
    requires CallOk(c) && c.phase.Backing?
    ensures EffectOk(c, Local(c, Back, room), room)
  {
    if c.phase.held.None? {
      FailOk(c, c.phase.why, c.phase.fatal);
    }
  }

  lemma LeaveOk(r: Rendition, reply: Reply)
    requires RenditionOk(r) && r.busy
    ensures RenditionOk(Left(r, reply)) && !Left(r, reply).busy && Left(r, reply).desc == r.desc
  {
  }

  lemma EnterOk(r: Rendition)
    requires RenditionOk(r)
    ensures RenditionOk(Entered(r)) && Entered(r).desc == r.desc
  {
  }

  /** A rendition that changes only itself, within its rules, leaves its call in order. */
  lemma ServeOk(c: Call, phase: Phase, room: bool)
    requires CallOk(c) && (c.phase.Live? || c.phase.Gone?)
    requires if c.phase.Gone? then phase.Gone? else (phase.Live? && phase.pipe == c.phase.pipe) || (phase.Draining? && phase.held == Some(c.phase.pipe))
    requires RenditionOk(phase.r) && phase.r.desc == c.phase.r.desc && (!phase.Live? ==> !phase.r.busy)
    ensures EffectOk(c, Only(c.(phase := phase)), room)
  {
  }

  lemma DrainOk(c: Call, room: bool)
    requires CallOk(c) && c.phase.Draining?
    ensures EffectOk(c, Drained(c), room)
  {
  }

  lemma NoOpOk(c: Call, room: bool)
    requires CallOk(c)
    ensures EffectOk(c, Only(c), room)
  {
  }

  lemma EnterUseOk(c: Call, room: bool)
    requires CallOk(c) && (c.phase.Live? || c.phase.Gone?)
    ensures EffectOk(c, Local(c, Enter, room), room)
  {
    var phase := Local(c, Enter, room).call.phase;
    if c.phase.Gone? || !c.phase.r.busy {
      EnterOk(c.phase.r);
      ServeOk(c, phase, room);
    } else {
      NoOpOk(c, room);
    }
  }

  lemma LeaveUseOk(c: Call, reply: Reply, room: bool)
    requires CallOk(c) && (c.phase.Live? || c.phase.Gone?)
    ensures EffectOk(c, Local(c, Leave(reply), room), room)
  {
    if c.phase.Live? && c.phase.r.busy {
      LeaveOk(c.phase.r, reply);
      ServeOk(c, Live(c.phase.pipe, Left(c.phase.r, reply)), room);
    } else {
      NoOpOk(c, room);
    }
  }

  lemma ReleaseUseOk(c: Call, room: bool)
    requires CallOk(c) && (c.phase.Live? || c.phase.Gone?)
    ensures EffectOk(c, Local(c, Step.Release, room), room)
  {
    if c.phase.Live? && !c.phase.r.busy {
      ServeOk(c, Draining(Some(c.phase.pipe), c.phase.r), room);
    } else {
      NoOpOk(c, room);
    }
  }

  lemma LocalOk(c: Call, step: Step, room: bool)
    requires CallOk(c)
    ensures EffectOk(c, Local(c, step, room), room)
  {
    if step.Admit? && c.phase.Choosing? {
      AdmitOk(c, step.wait, room);
    } else if step.Prepare? && c.phase.Preparing? {
      PrepareOk(c, step.outcome, room);
    } else if step.Prime? && c.phase.Priming? {
      PrimeOk(c, step.named, step.generation, room);
    } else if step.Back? && c.phase.Backing? {
      BackOk(c, room);
    } else if step.Enter? && (c.phase.Live? || c.phase.Gone?) {
      EnterUseOk(c, room);
    } else if step.Leave? && (c.phase.Live? || c.phase.Gone?) {
      LeaveUseOk(c, step.reply, room);
    } else if step.Release? && (c.phase.Live? || c.phase.Gone?) {
      ReleaseUseOk(c, room);
    } else if step.Drain? && c.phase.Draining? {
      DrainOk(c, room);
    } else {
      NoOpOk(c, room);
    }
  }

  // ---------------------------------------------------------------- global facts

  lemma SizeWithout(s: set<CallId>, id: CallId)
    ensures |s - {id}| == |s| - if id in s then 1 else 0
  {
    if id !in s {
      assert s - {id} == s;
    }
  }

  lemma SizesMove(was: set<CallId>, now: set<CallId>, id: CallId)
    requires was - {id} == now - {id}
    ensures |now| - (if id in now then 1 else 0) == |was| - (if id in was then 1 else 0)
  {
    SizeWithout(was, id);
    SizeWithout(now, id);
  }

  lemma ApplyKeepsTokens(limits: Limits, s: State, id: CallId, e: Effect)
    requires TokensOk(limits, s) && id in s.calls && TokenMoves(s.calls[id], e, Room(limits, s, s.calls[id]))
    requires e.take.Some? ==> e.take == GateAt(s.calls[id])
    ensures TokensOk(limits, Apply(s, id, e))
  {
    var s' := Apply(s, id, e);
    forall gate ensures Used(s'.used, gate) == |Holders(s', gate)| <= LimitOf(limits, gate) {
      SizesMove(Holders(s, gate), Holders(s', gate), id);
      assert Used(s.used, gate) == |Holders(s, gate)|;
      if e.free.Some? {
        assert id in Holders(s, e.free.value);
        assert Used(s.used, e.free.value) == |Holders(s, e.free.value)|;
      }
    }
  }

  lemma ApplyKeepsPipes(s: State, id: CallId, e: Effect)
    requires PipesOk(s) && id in s.calls && PipeMoves(s.calls[id], e)
    requires e.open.Some? ==> e.open.value !in s.pipes
    ensures PipesOk(Apply(s, id, e))
  {
  }

  lemma TakeIsOwnGate(c: Call, step: Step, room: bool)
    ensures var e := Local(c, step, room);
            && (e.take.Some? ==> e.take == GateAt(c))
            && (e.open.Some? ==> step.Prepare? && step.outcome.Built? && e.open == Some(step.outcome.pipe))
  {
  }

  lemma StartKeepsTokens(limits: Limits, s: State, id: CallId, c: Call)
    requires TokensOk(limits, s) && id !in s.calls && Token(c) == None
    ensures TokensOk(limits, s.(calls := s.calls[id := c]))
  {
    var s' := s.(calls := s.calls[id := c]);
    forall gate ensures Used(s'.used, gate) == |Holders(s', gate)| <= LimitOf(limits, gate) {
      assert Holders(s', gate) == Holders(s, gate);
      assert Used(s.used, gate) == |Holders(s, gate)|;
    }
  }

  lemma StartKeepsPipes(s: State, id: CallId, c: Call)
    requires PipesOk(s) && id !in s.calls && PipeOf(c) == None
    ensures PipesOk(s.(calls := s.calls[id := c]))
  {
  }

  lemma BeganOk(output: OutputContract, cands: seq<Candidate>)
    ensures var c := Began(output, cands); CallOk(c) && Token(c) == None && PipeOf(c) == None
  {
  }

  lemma ApplyKeepsInv(limits: Limits, s: State, id: CallId, e: Effect)
    requires Inv(limits, s) && id in s.calls && EffectOk(s.calls[id], e, Room(limits, s, s.calls[id]))
    requires (e.take.Some? ==> e.take == GateAt(s.calls[id])) && (e.open.Some? ==> e.open.value !in s.pipes)
    ensures Inv(limits, Apply(s, id, e))
  {
    ApplyKeepsTokens(limits, s, id, e);
    ApplyKeepsPipes(s, id, e);
  }

  /** Every step keeps the invariant. */
  lemma NextKeepsInv(limits: Limits, s: State, id: CallId, step: Step)
    requires Inv(limits, s)
    ensures Inv(limits, Next(limits, s, id, step))
  {
    if id !in s.calls {
      if step.Start? {
        var c := Began(step.output, step.cands);
        BeganOk(step.output, step.cands);
        StartKeepsTokens(limits, s, id, c);
        StartKeepsPipes(s, id, c);
      }
    } else if Fresh(s, step) {
      var room := Room(limits, s, s.calls[id]);
      var e := Local(s.calls[id], step, room);
      LocalOk(s.calls[id], step, room);
      TakeIsOwnGate(s.calls[id], step, room);
      ApplyKeepsInv(limits, s, id, e);
    }
  }

  lemma {:induction false} RunKeepsInv(limits: Limits, s: State, events: seq<Event>)
    requires Inv(limits, s)
    ensures Inv(limits, Run(limits, s, events))
    decreases |events|
  {
    if events != [] {
      NextKeepsInv(limits, s, events[0].id, events[0].step);
      RunKeepsInv(limits, Next(limits, s, events[0].id, events[0].step), events[1..]);
    }
  }

  lemma InitInv(limits: Limits)
    ensures Inv(limits, Init)
  {
    forall gate ensures Used(Init.used, gate) == |Holders(Init, gate)| {
      assert Holders(Init, gate) == {};
    }
  }

  // ---------------------------------------------------------------- the promises

  /** A gate's use count is the number of calls and unreleased renditions holding it, never above its limit. */
  lemma {:induction false} TokensConserved(limits: Limits, events: seq<Event>, gate: string)
    ensures var s := Run(limits, Init, events);
            Used(s.used, gate) == |Holders(s, gate)| <= LimitOf(limits, gate)
  {
    InitInv(limits);
    RunKeepsInv(limits, Init, events);
    var s := Run(limits, Init, events);
    assert Used(s.used, gate) == |Holders(s, gate)|;
  }

  predicate Finished(c: Call) { c.phase.Refused? || c.phase.Gone? }

  /** A refused call and a released rendition hold nothing: when no others are left every gate is free. */
  lemma {:induction false} NothingLeaks(limits: Limits, events: seq<Event>)
    ensures var s := Run(limits, Init, events);
            && (forall p :: p in s.pipes ==> s.pipes[p].closes <= 1)
            && (forall p :: p in s.pipes ==> s.pipes[p].owner in s.calls && (Finished(s.calls[s.pipes[p].owner]) ==> s.pipes[p].closes == 1))
            && ((forall id :: id in s.calls ==> Finished(s.calls[id])) ==> forall gate :: Used(s.used, gate) == 0)
  {
    InitInv(limits);
    RunKeepsInv(limits, Init, events);
    var s := Run(limits, Init, events);
    FinishedHoldNothing(limits, s);
  }

  lemma FinishedHoldNothing(limits: Limits, s: State)
    requires TokensOk(limits, s) && PipesOk(s)
    ensures forall p :: p in s.pipes && Finished(s.calls[s.pipes[p].owner]) ==> s.pipes[p].closes == 1
    ensures (forall id :: id in s.calls ==> Finished(s.calls[id])) ==> forall gate :: Used(s.used, gate) == 0
  {
    if forall id :: id in s.calls ==> Finished(s.calls[id]) {
      forall gate ensures Used(s.used, gate) == 0 {
        assert Used(s.used, gate) == |Holders(s, gate)|;
        assert Holders(s, gate) == {};
      }
    }
  }

  /** A pipeline is open whenever it is producing a segment, whoever calls Release meanwhile. */
  lemma {:induction false} BusyPipelineIsOpen(limits: Limits, events: seq<Event>, id: CallId)
    ensures var s := Run(limits, Init, events);
            id in s.calls && s.calls[id].phase.Live? ==>
            && s.calls[id].phase.pipe in s.pipes && s.pipes[s.calls[id].phase.pipe] == Pipe(id, 0)
  {
    InitInv(limits);
    RunKeepsInv(limits, Init, events);
  }

  /**
   A rendition comes with exactly the contract asked for, from the first candidate that did not fail; each
   earlier one failed in a way that allows falling back, and if it is a CPU rendition no hardware candidate
   before it had reported exhaustion.
   */
  lemma {:induction false} RenditionFollowsPolicy(limits: Limits, events: seq<Event>, id: CallId)
    ensures var s := Run(limits, Init, events);
            id in s.calls && RenditionOf(s.calls[id]).Some? ==>
            var c := s.calls[id];
            && |c.log| == c.i < |c.cands| && Servable(c.output)
            && Describes(RenditionOf(c).value.desc, c.cands[c.i], c.output) && (forall j :: 0 <= j < c.i ==> CanFallback(c.log[j]))
            && (c.cands[c.i].kind == CPU ==> forall j :: 0 <= j < c.i ==> !Exhausted(c.cands[j], c.log[j]))
  {
    InitInv(limits);
    RunKeepsInv(limits, Init, events);
  }

  /** A refusal has one of five reasons, and nothing else stops the search. */
  lemma {:induction false} RefusedOnlyIf(limits: Limits, events: seq<Event>, id: CallId)
    ensures var s := Run(limits, Init, events);
            id in s.calls && s.calls[id].phase.Refused? ==> RefusalOk(s.calls[id], s.calls[id].phase.error)
  {
    InitInv(limits);
    RunKeepsInv(limits, Init, events);
  }

  /** Releasing again changes nothing, nor does anything else done to a released rendition but its answers. */
  lemma ReleaseFreesOnce(limits: Limits, s: State, id: CallId, step: Step)
    requires id in s.calls && (s.calls[id].phase.Gone? || (s.calls[id].phase.Draining? && step.Release?))
    ensures var s' := Next(limits, s, id, step);
            && s'.used == s.used && s'.pipes == s.pipes
            && (step.Release? ==> s' == s)
            && (s.calls[id].phase.Gone? ==> s'.calls[id].phase.Gone?)
  {
    if Fresh(s, step) && step.Release? {
      assert s.calls[id := s.calls[id]] == s.calls;
    }
  }

  /** What Init answers: the committed bytes while live, an error once release has begun, and no rendition before. */
  function InitAnswer(c: Call): Option<Answer> {
    match c.phase
    case Live(_, r) => Some(Bytes(r.init))
    case Draining(_, _) => Some(Released)
    case Gone(_) => Some(Released)
    case _ => None
  }

  lemma InitStep(limits: Limits, s: State, id: CallId, ev: Event)
    requires id in s.calls && s.calls[id].phase.Live?
    ensures var s' := Next(limits, s, ev.id, ev.step);
            && id in s'.calls
            && (if s'.calls[id].phase.Live? then s'.calls[id].phase.r.init == s.calls[id].phase.r.init && !(ev.id == id && ev.step.Release? && !s.calls[id].phase.r.busy)
                else s'.calls[id].phase.Draining? && ev.id == id && ev.step.Release?)
  {
  }

  /** No release of this rendition takes effect in the run. */
  ghost predicate Unreleased(limits: Limits, s: State, id: CallId, events: seq<Event>)
    decreases |events|
  {
    id in s.calls && s.calls[id].phase.Live? &&
    (events != [] ==> Unreleased(limits, Next(limits, s, events[0].id, events[0].step), id, events[1..]))
  }

  /**
   In every run Init answers the same non-empty bytes the provider primed, whatever becomes of the
   generation, until the first Release takes effect, and never again after it.
   */
  lemma {:induction false} InitIsFrozen(limits: Limits, s: State, id: CallId, events: seq<Event>)
    requires id in s.calls && CallOk(s.calls[id]) && s.calls[id].phase.Live?
    ensures var s' := Run(limits, s, events);
            && id in s'.calls && s.calls[id].phase.r.init != []
            && InitAnswer(s'.calls[id]) == Some(if Unreleased(limits, s, id, events) then Bytes(s.calls[id].phase.r.init) else Released)
    decreases |events|
  {
    if events != [] {
      var s' := Next(limits, s, events[0].id, events[0].step);
      InitStep(limits, s, id, events[0]);
      if s'.calls[id].phase.Live? {
        CallStaysOk(limits, s, id, events[0]);
        InitIsFrozen(limits, s', id, events[1..]);
      } else {
        NeverLiveAgain(limits, s', id, events[1..]);
      }
    }
  }

  lemma CallStaysOk(limits: Limits, s: State, id: CallId, ev: Event)
    requires id in s.calls && CallOk(s.calls[id])
    ensures id in Next(limits, s, ev.id, ev.step).calls && CallOk(Next(limits, s, ev.id, ev.step).calls[id])
  {
    if ev.id == id && Fresh(s, ev.step) {
      LocalOk(s.calls[id], ev.step, Room(limits, s, s.calls[id]));
    }
  }

  /** An ended generation and the same one later: not yet released, it has only repeated its error. */
  ghost predicate OnlyRepeats(r: Rendition, r': Rendition) {
    && r'.terminal == r.terminal && r'.life == r.life && r'.invoked == r.invoked
    && |r'.answers| >= |r.answers| && r'.answers[..|r.answers|] == r.answers
    && forall k :: |r.answers| <= k < |r'.answers| ==> r.terminal.Some? && r'.answers[k] == Error(r.terminal.value)
  }

  ghost predicate AlreadyEnded(c: Call) { c.phase.Live? && Ended(c.phase.r.life) && RenditionOk(c.phase.r) }

  lemma EndedLocal(c: Call, step: Step, room: bool)
    requires AlreadyEnded(c)
    ensures var c' := Local(c, step, room).call;
            && (c'.phase.Live? || c'.phase.Draining?)
            && (c'.phase.Live? ==> AlreadyEnded(c') && OnlyRepeats(c.phase.r, c'.phase.r))
  {
  }

  lemma EndedStep(limits: Limits, s: State, id: CallId, ev: Event)
    requires id in s.calls && AlreadyEnded(s.calls[id])
    ensures var s' := Next(limits, s, ev.id, ev.step);
            && id in s'.calls && (s'.calls[id].phase.Live? || s'.calls[id].phase.Draining?)
            && (s'.calls[id].phase.Live? ==> AlreadyEnded(s'.calls[id]) && OnlyRepeats(s.calls[id].phase.r, s'.calls[id].phase.r))
  {
    if ev.id == id && Fresh(s, ev.step) {
      EndedLocal(s.calls[id], ev.step, Room(limits, s, s.calls[id]));
    }
  }

  lemma {:induction false} NeverLiveAgain(limits: Limits, s: State, id: CallId, events: seq<Event>)
    requires id in s.calls && (s.calls[id].phase.Draining? || s.calls[id].phase.Gone?)
    ensures id in Run(limits, s, events).calls
    ensures Run(limits, s, events).calls[id].phase.Draining? || Run(limits, s, events).calls[id].phase.Gone?
    decreases |events|
  {
    if events != [] {
      NeverLiveAgain(limits, Next(limits, s, events[0].id, events[0].step), id, events[1..]);
    }
  }

  /** Once a generation fails or completes, until released it calls no pipeline and answers the same error. */
  lemma {:induction false} EndedOnlyRepeats(limits: Limits, s: State, id: CallId, events: seq<Event>)
    requires id in s.calls && AlreadyEnded(s.calls[id])
    ensures var s' := Run(limits, s, events);
            && id in s'.calls
            && (s'.calls[id].phase.Live? ==> OnlyRepeats(s.calls[id].phase.r, s'.calls[id].phase.r))
    decreases |events|
  {
    if events != [] {
      EndedStep(limits, s, id, events[0]);
      var s' := Next(limits, s, events[0].id, events[0].step);
      if s'.calls[id].phase.Live? {
        EndedOnlyRepeats(limits, s', id, events[1..]);
      } else {
        NeverLiveAgain(limits, s', id, events[1..]);
      }
    }
  }

  /** Exactly which replies end a generation: errors not classed as cancellation; EOF completes it. */
  lemma EndsIff(r: Rendition, reply: Reply)
    requires RenditionOk(r) && r.busy
    ensures Ended(Left(r, reply).life) <==> reply.Missed? && CategoryOf(reply.error) != Cancelled
    ensures Left(r, reply).life == Complete <==> reply.Missed? && CategoryOf(reply.error) != Cancelled && Is(reply.error, EOF)
    ensures reply.Missed? ==> Left(r, reply).answers[|r.answers|..] == [Error(WithGeneration(reply.error, r.desc.generation))]
  {
    if reply.Missed? {
      TaggingKeepsClass(reply.error, r.desc.generation);
    }
  }

  /** A segment the pipeline produced is handed out as it is, and one call of Segment calls the pipeline once. */
  lemma SegmentIsHandedOut(r: Rendition, bytes: seq<byte>)
    requires RenditionOk(r) && !r.busy && !Ended(r.life)
    ensures var r' := Left(Entered(r), Got(bytes));
            && r'.answers == r.answers + [Bytes(bytes)] && r'.invoked == r.invoked + 1
            && r'.life == Running && r'.terminal == None && !r'.busy && r'.desc == r.desc
  {
  }

  /** A candidate that was admitted, prepared a pipeline with what was asked for, and got a name is the one served. */
  lemma PrimedIsServed(limits: Limits, s: State, id: CallId, generation: string)
    requires id in s.calls && s.calls[id].phase.Priming? && CallOk(s.calls[id])
    requires var c := s.calls[id]; var p := c.phase.primed; p.contract == c.output && p.init != [] && p.fingerprint != ""
    ensures var c := s.calls[id]; var p := c.phase.primed;
            Next(limits, s, id, Prime(true, generation)).calls[id].phase ==
            Live(c.phase.pipe, Rendition(
              Descriptor(generation, c.output, c.output.rate.max * 11 / 10, c.cands[c.i].name, c.cands[c.i].device.id, p.fingerprint),
              p.init, Committed, None, false, 0, []))
  {
  }

  // ---------------------------------------------------------------- a full device

  /** Every token of the device's gate is taken. */
  predicate FullDevice(limits: Limits, used: map<string, nat>, k: Candidate) {
    k.kind == Hardware && Used(used, k.name + "/" + k.device.id) >= limits.perDevice
  }

  /** The call is about to try a device whose gate is full. */
  predicate AtFullDevice(limits: Limits, s: State, id: CallId) {
    && id in s.calls && s.calls[id].phase.Choosing? && CallOk(s.calls[id])
    && s.calls[id].i < |s.calls[id].cands| && FullDevice(limits, s.used, s.calls[id].cands[s.calls[id].i])
  }

  /** Contention has been noted, and an exhaustion is what was noted. */
  ghost predicate Contended(s: State, id: CallId) {
    id in s.calls && CallOk(s.calls[id]) && (s.calls[id].phase.Refused? || s.calls[id].contention.Some?)
  }

  lemma FullDeviceIsNoted(limits: Limits, s: State, id: CallId, wait: Wait)
    requires AtFullDevice(limits, s, id)
    ensures var s' := Next(limits, s, id, Admit(wait)); var c := s.calls[id];
            && Contended(s', id) && s'.calls[id].phase.Choosing? && s'.calls[id].i == c.i + 1 && s'.calls[id].cands == c.cands
            && s'.calls[id].contention.Some? && CategoryOf(s'.calls[id].contention.value) == ResourceExhausted
  {
    var c := s.calls[id];
    var k := c.cands[c.i];
    DeviceGateIsItsOwn(k.name, k.device.id);
    assert !Room(limits, s, c);
    LocalOk(c, Admit(wait), false);
    FullBars(k, wait);
  }

  lemma FullBars(k: Candidate, wait: Wait)
    requires k.kind == Hardware
    ensures Barred(k, wait, false).Some? && CategoryOf(Barred(k, wait, false).value) == ResourceExhausted
  {
  }

  lemma ContendedStep(limits: Limits, s: State, id: CallId, ev: Event)
    requires Contended(s, id)
    ensures Contended(Next(limits, s, ev.id, ev.step), id)
  {
    CallStaysOk(limits, s, id, ev);
    if ev.id == id && Fresh(s, ev.step) {
      ContentionStays(s.calls[id], ev.step, Room(limits, s, s.calls[id]));
    }
  }

  lemma ContentionStays(c: Call, step: Step, room: bool)
    requires CallOk(c) && (c.phase.Refused? || c.contention.Some?)
    ensures var c' := Local(c, step, room).call; c'.phase.Refused? || c'.contention.Some?
  {
  }

  /**
   A call that tries a device while its gate is full never ends in a CPU rendition, in any run from there and
   whoever else acquires or releases meanwhile.
   */
  lemma {:induction false} FullDeviceBarsCPU(limits: Limits, s: State, id: CallId, wait: Wait, events: seq<Event>)
    requires AtFullDevice(limits, s, id)
    ensures var e := Run(limits, Next(limits, s, id, Admit(wait)), events);
            && id in e.calls
            && (RenditionOf(e.calls[id]).Some? ==> e.calls[id].i < |e.calls[id].cands| && e.calls[id].cands[e.calls[id].i].kind != CPU)
  {
    FullDeviceIsNoted(limits, s, id, wait);
    ContendedRun(limits, Next(limits, s, id, Admit(wait)), id, events);
  }

  lemma {:induction false} ContendedRun(limits: Limits, s: State, id: CallId, events: seq<Event>)
    requires Contended(s, id)
    ensures Contended(Run(limits, s, events), id)
    decreases |events|
  {
    if events != [] {
      ContendedStep(limits, s, id, events[0]);
      ContendedRun(limits, Next(limits, s, events[0].id, events[0].step), id, events[1..]);
    }
  }

  /** And if the next candidate is the CPU, the call is refused, with the exhaustion as the reason. */
  lemma FullDeviceThenCPU(limits: Limits, s: State, id: CallId, wait: Wait, wait': Wait)
    requires AtFullDevice(limits, s, id)
    requires s.calls[id].i + 1 < |s.calls[id].cands| && s.calls[id].cands[s.calls[id].i + 1].kind == CPU
    ensures var c := Next(limits, Next(limits, s, id, Admit(wait)), id, Admit(wait')).calls[id];
            c.phase.Refused? && CategoryOf(c.phase.error) == ResourceExhausted
  {
    FullDeviceIsNoted(limits, s, id, wait);
  }

  /** A provider that files a cancelled caller under another category does end the generation. */
  lemma MisfiledCancellationEnds(r: Rendition, name: string, device: string)
    requires RenditionOk(r) && r.busy
    ensures var e := NewFailure(SourceIO, name, device, Segment, Plain(ContextCanceled));
            IsCancellation(e) && Left(r, Missed(e)).life == Lifecycles.Failed
  {
    var root := Plain(ContextCanceled);
    var e := NewFailure(SourceIO, name, device, Segment, root);
    assert forall x :: Is(e, x) <==> Is(root, x);
    EndsIff(r, Missed(e));
  }
}
