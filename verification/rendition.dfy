/** Rendition failures and how they are classified (media/rendition/errors.go). */
module Failures {
  import opened Common

  datatype Category =
    | DeviceUnavailable | SourceCapability | ResourceExhausted | AdmissionTimeout
    | SourceIO | Cancelled | InvalidOutput | Mux

  /** What a chain of wrapped errors ends in. */
  datatype Root =
    | ContextCanceled | DeadlineExceeded | EOF
    | WaitExpired | CapacityBusy | UnknownKind | NoProvider | BadContract | BadPriming | NoRandomness
    | Other(message: string)

  /** Where it went wrong: the manager's own stages, or one a provider names. */
  datatype Where = Validate | Discover | Admission | PrimeOutput | Commit | Segment | Elsewhere(stage: string)

  datatype Error =
    | Plain(root: Root)
    | Wrapped(message: string, inner: Error)
    | Failure(category: Category, provider: string, device: string, stage: Where, generation: string, cause: Error)

  function NewFailure(category: Category, provider: string, device: string, stage: Where, cause: Error): Error {
    Failure(category, provider, device, stage, "", cause)
  }

  /** errors.Is: the chain ends in `root`. */
  predicate Is(e: Error, root: Root) {
    match e
    case Plain(r) => r == root
    case Wrapped(_, inner) => Is(inner, root)
    case Failure(_, _, _, _, _, cause) => Is(cause, root)
  }

  /** errors.As: the outermost rendition failure of the chain. */
  function As(e: Error): Option<Error> {
    match e
    case Plain(_) => None
    case Wrapped(_, inner) => As(inner)
    case Failure(_, _, _, _, _, _) => Some(e)
  }

  predicate IsCancellation(e: Error) { Is(e, ContextCanceled) || Is(e, DeadlineExceeded) }

  lemma AsIsFailure(e: Error)
    ensures As(e).Some? ==> As(e).value.Failure? && forall root :: Is(As(e).value, root) == Is(e, root)
  {
  }

  function CategoryOf(e: Error): Category {
    match As(e)
    case Some(f) => AsIsFailure(e); f.category
    case None => if IsCancellation(e) then Cancelled else InvalidOutput
  }

  /** How errors are classified: by the outermost failure of the chain, else by what the chain ends in. */
  lemma Classified(e: Error, root: Root, message: string, c: Category, provider: string, device: string, stage: Where, generation: string)
    ensures CategoryOf(Failure(c, provider, device, stage, generation, e)) == c
    ensures CategoryOf(Wrapped(message, e)) == CategoryOf(e)
    ensures CategoryOf(Plain(root)) == if root == ContextCanceled || root == DeadlineExceeded then Cancelled else InvalidOutput
  {
    AsIsFailure(e);
  }

  /** The error as a rendition reports it: tagged with its generation. */
  function WithGeneration(e: Error, generation: string): Error {
    match As(e)
    case Some(f) => AsIsFailure(e); f.(generation := generation)
    case None => Failure(if IsCancellation(e) then Cancelled else InvalidOutput, "", "", Segment, generation, e)
  }

  /** Tagging drops outer wrapping but never changes how an error is classified, nor what it ends in. */
  lemma TaggingKeepsClass(e: Error, generation: string)
    ensures var tagged := WithGeneration(e, generation);
            && CategoryOf(tagged) == CategoryOf(e)
            && (forall root :: Is(tagged, root) == Is(e, root))
            && As(tagged) == Some(tagged) && tagged.generation == generation
  {
    AsIsFailure(e);
  }

  /** Another candidate may be tried after this failure: anything but a cancelled caller or a broken source. */
  predicate CanFallback(e: Error)
    ensures CanFallback(e) <==> CategoryOf(e) != Cancelled && CategoryOf(e) != SourceIO
  {
    match CategoryOf(e)
    case DeviceUnavailable | SourceCapability | ResourceExhausted | AdmissionTimeout | InvalidOutput | Mux => true
    case _ => false
  }
}

/** The states of one generation (media/rendition/lifecycle.go). */
module Lifecycles {
  datatype Generation = Discovered | CandidatePrepared | Primed | Committed | Running | Complete | Failed

  predicate Ended(g: Generation) { g == Complete || g == Failed }

  predicate Allowed(from: Generation, next: Generation) {
    match from
    case Discovered => next == CandidatePrepared
    case CandidatePrepared => next == Primed
    case Primed => next == Committed
    case Committed => next == Running || next == Failed
    case Running => next == Complete || next == Failed
    case _ => false
  }

  /** A chain of allowed transitions of a new generation. */
  predicate Life(path: seq<Generation>) {
    && path != [] && path[0] == Discovered
    && forall i :: 0 < i < |path| ==> Allowed(path[i - 1], path[i])
  }

  /** The only way to each state. */
  function WayTo(g: Generation): seq<Generation> {
    match g
    case Discovered => [Discovered]
    case CandidatePrepared => [Discovered, CandidatePrepared]
    case Primed => [Discovered, CandidatePrepared, Primed]
    case Committed => [Discovered, CandidatePrepared, Primed, Committed]
    case Running => [Discovered, CandidatePrepared, Primed, Committed, Running]
    case Complete => [Discovered, CandidatePrepared, Primed, Committed, Running, Complete]
    case Failed => [Discovered, CandidatePrepared, Primed, Committed, Failed]
  }

  /**
   Whatever was asked of it, a generation's life is one fixed path, except that it may fail with or
   without having run. In particular it never leaves an end state and completes only by running.
   */
  lemma {:induction false} LifeIsFixed(path: seq<Generation>)
    requires Life(path)
    ensures var g := path[|path| - 1]; path == WayTo(g) || (g == Failed && path == WayTo(Running) + [Failed])
    decreases |path|
  {
    if |path| > 1 {
      var before := path[..|path| - 1];
      LifeIsFixed(before);
      assert path == before + [path[|path| - 1]];
      assert Allowed(before[|before| - 1], path[|path| - 1]);
    }
  }

  /** And every one of those paths is a life. */
  lemma WaysAreLives(g: Generation)
    ensures Life(WayTo(g)) && WayTo(g)[|WayTo(g)| - 1] == g
    ensures Life([Discovered, CandidatePrepared, Primed, Committed, Running, Failed])
  {
  }

  class GenerationLifecycle {
    var state: Generation

    constructor ()
      ensures state == Discovered
    {
      state := Discovered;
    }

    method Transition(next: Generation) returns (ok: bool)
      modifies this
      ensures ok == Allowed(old(state), next)
      ensures state == if ok then next else old(state)
    {
      ok := Allowed(state, next);
      if ok {
        state := next;
      }
    }
  }
}

/** What a caller may ask for, and the pipelines that could serve it, in order (media/rendition/manager.go). */
module Candidates {
  import opened Common

  datatype Rational = Rational(num: int, den: int)

  datatype RateControl = RateControl(target: int, max: int)

  datatype GOP = GOP(segmentDuration: Rational, closed: bool, idrAtBoundary: bool)

  /** The fixed names a contract is checked against, and any other text. */
  datatype Name = H264 | High | Yuv420p | BT709 | Text(text: string)

  datatype Color = Color(primaries: Name, transfer: Name, matrix: Name, range: string)

  datatype OutputContract = OutputContract(codec: Name, codecString: string, profile: Name, level: string,
    width: int, height: int, pixelFormat: Name, frameRate: Rational, timeBase: Rational,
    rate: RateControl, gop: GOP, color: Color)

  predicate Positive(r: Rational) { r.num > 0 && r.den > 0 }

  /** The contract passes validation: H.264 High, 8-bit 4:2:0, SDR BT.709, closed GOPs, a sane rate. */
  predicate Servable(c: OutputContract) {
    && c.codec == H264 && c.codecString != "" && c.profile == High && c.level != ""
    && c.width > 0 && c.height > 0 && c.width % 2 == 0 && c.height % 2 == 0
    && c.pixelFormat == Yuv420p
    && Positive(c.frameRate) && Positive(c.timeBase)
    && c.rate.target > 0 && c.rate.max >= c.rate.target
    && Positive(c.gop.segmentDuration) && c.gop.closed && c.gop.idrAtBoundary
    && c.color.primaries == BT709 && c.color.transfer == BT709 && c.color.matrix == BT709 && c.color.range != ""
  }

  datatype Kind = Copy | Hardware | CPU | Unknown

  datatype Device = Device(id: string, score: real)

  datatype Provider = Provider(name: string, kind: Kind, inventory: seq<Device>)

  datatype Mode = CopyMode | HardwareMode | SoftwareMode

  datatype Candidate = Candidate(name: string, kind: Kind, device: Device, mode: Mode)

  function Identity(name: string, id: string): string { name + "/" + id }

  /** The admission gate a candidate must pass; a copy needs none. */
  function GateOf(c: Candidate): Option<string> {
    match c.kind
    case Copy => None
    case CPU => Some("cpu")
    case Hardware => Some(Identity(c.name, c.device.id))
    case Unknown => None
  }

  datatype Limits = Limits(perDevice: nat, cpu: nat)

  function LimitOf(limits: Limits, gate: string): nat { if gate == "cpu" then limits.cpu else limits.perDevice }

  /** No device shares the CPU's gate, so the limit a gate is created with depends on its name alone. */
  lemma DeviceGateIsItsOwn(name: string, id: string)
    ensures Identity(name, id) != "cpu"
  {
    assert Identity(name, id)[|name|] == '/';
    assert forall i :: 0 <= i < |"cpu"| ==> "cpu"[i] != '/';
  }

  /** Every clause of the validation matters: breaking any one of them makes a good contract bad. */
  lemma EveryClauseMatters(c: OutputContract, other: Name)
    requires Servable(c) && other.Text?
    ensures !Servable(c.(codec := other)) && !Servable(c.(codecString := "")) && !Servable(c.(profile := other)) && !Servable(c.(level := ""))
    ensures !Servable(c.(width := c.width + 1)) && !Servable(c.(height := c.height + 1)) && !Servable(c.(width := 0)) && !Servable(c.(height := 0))
    ensures !Servable(c.(pixelFormat := other))
    ensures !Servable(c.(frameRate := Rational(0, 1))) && !Servable(c.(timeBase := Rational(1, 0)))
    ensures !Servable(c.(rate := RateControl(0, 1))) && !Servable(c.(rate := RateControl(2, 1)))
    ensures !Servable(c.(gop := GOP(Rational(1, 1), false, true))) && !Servable(c.(gop := GOP(Rational(1, 1), true, false)))
    ensures !Servable(c.(gop := GOP(Rational(0, 1), true, true)))
    ensures !Servable(c.(color := Color(other, BT709, BT709, "tv"))) && !Servable(c.(color := Color(BT709, other, BT709, "tv")))
    ensures !Servable(c.(color := Color(BT709, BT709, other, "tv"))) && !Servable(c.(color := Color(BT709, BT709, BT709, "")))
  {
  }

  // ---------------------------------------------------------------- the order of trial

  /** Copy, then hardware decode, then hardware with uploaded frames, then CPU. */
  function Stage(c: Candidate): nat {
    match c.kind
    case Copy => 0
    case Hardware => if c.mode == HardwareMode then 1 else 2
    case CPU => 3
    case Unknown => 4
  }

  /** What the order is by: the stage, a device's load, its place in the allow-list, or else its score. */
  datatype Place = Place(stage: nat, use: nat, rank: nat, score: real)

  datatype Policy = Policy(ranks: map<string, nat>, used: map<string, nat>)

  function Used(used: map<string, nat>, gate: string): nat { if gate in used then used[gate] else 0 }

  function PlaceOf(p: Policy, c: Candidate): Place {
    var identity := Identity(c.name, c.device.id);
    if c.kind != Hardware then Place(Stage(c), 0, 0, c.device.score)
    else if p.ranks == map[] then Place(Stage(c), Used(p.used, identity), 0, c.device.score)
    else Place(Stage(c), Used(p.used, identity), Used(p.ranks, identity), 0.0)
  }

  predicate Ahead(x: Place, y: Place) {
    if x.stage != y.stage then x.stage < y.stage
    else if x.use != y.use then x.use < y.use
    else if x.rank != y.rank then x.rank < y.rank
    else x.score > y.score
  }

  /** What one device offers. A non-empty allow-list bars the devices it does not name. */
  function Offer(p: Policy, name: string, kind: Kind, d: Device): seq<Candidate> {
    match kind
    case Copy => [Candidate(name, kind, d, CopyMode)]
    case CPU => [Candidate(name, kind, d, SoftwareMode)]
    case Hardware =>
      if p.ranks != map[] && Identity(name, d.id) !in p.ranks then []
      else [Candidate(name, kind, d, HardwareMode), Candidate(name, kind, d, SoftwareMode)]
    case Unknown => []
  }

  /** What the first `k` devices of a provider offer, in order. */
  function OfferedBy(p: Policy, v: Provider, k: nat): seq<Candidate>
    requires k <= |v.inventory|
  {
    if k == 0 then [] else OfferedBy(p, v, k - 1) + Offer(p, v.name, v.kind, v.inventory[k - 1])
  }

  /** What the first `k` providers offer, in order. */
  function Offered(p: Policy, vs: seq<Provider>, k: nat): seq<Candidate>
    requires k <= |vs|
  {
    if k == 0 then [] else Offered(p, vs, k - 1) + OfferedBy(p, vs[k - 1], |vs[k - 1].inventory|)
  }

  /** The candidates at one place, in order. */
  function At(p: Policy, cs: seq<Candidate>, q: Place): seq<Candidate> {
    if cs == [] then []
    else At(p, cs[..|cs| - 1], q) + if PlaceOf(p, cs[|cs| - 1]) == q then [cs[|cs| - 1]] else []
  }

  ghost predicate SortedBy(p: Policy, cs: seq<Candidate>) {
    forall i, j :: 0 <= i < j < |cs| ==> !Ahead(PlaceOf(p, cs[j]), PlaceOf(p, cs[i]))
  }

  /** Place by place the same candidates in the same order: nothing lost, added or needlessly swapped. */
  ghost predicate SamePlaces(p: Policy, xs: seq<Candidate>, ys: seq<Candidate>) {
    forall q: Place :: At(p, xs, q) == At(p, ys, q)
  }

  ghost predicate IsStableSort(p: Policy, xs: seq<Candidate>, ys: seq<Candidate>) {
    SortedBy(p, ys) && SamePlaces(p, xs, ys)
  }

  lemma {:induction false} AtAppend(p: Policy, xs: seq<Candidate>, ys: seq<Candidate>, q: Place)
    ensures At(p, xs + ys, q) == At(p, xs, q) + At(p, ys, q)
    decreases |ys|
  {
    if ys == [] {
      assert xs + ys == xs;
    } else {
      AtAppend(p, xs, ys[..|ys| - 1], q);
      assert (xs + ys)[..|xs + ys| - 1] == xs + ys[..|ys| - 1];
    }
  }

  /** Every candidate elsewhere: none at `q`. */
  lemma {:induction false} AtNowhere(p: Policy, xs: seq<Candidate>, q: Place)
    requires forall i :: 0 <= i < |xs| ==> PlaceOf(p, xs[i]) != q
    ensures At(p, xs, q) == []
    decreases |xs|
  {
    if xs != [] {
      AtNowhere(p, xs[..|xs| - 1], q);
    }
  }

  /** A candidate goes in behind all that it is not ahead of. */
  method Insert(p: Policy, sorted: seq<Candidate>, c: Candidate) returns (r: seq<Candidate>)
    requires SortedBy(p, sorted)
    ensures IsStableSort(p, sorted + [c], r) && |r| == |sorted| + 1
    ensures forall x :: x in r ==> x in sorted || x == c
  {
    var k := |sorted|;
    while k > 0 && Ahead(PlaceOf(p, c), PlaceOf(p, sorted[k - 1]))
      invariant 0 <= k <= |sorted|
      invariant forall i :: k <= i < |sorted| ==> Ahead(PlaceOf(p, c), PlaceOf(p, sorted[i]))
    {
      k := k - 1;
    }
    r := sorted[..k] + [c] + sorted[k..];
    assert sorted[..k] + sorted[k..] == sorted;
    InsertedIsSorted(p, sorted[..k], sorted[k..], c);
  }

  lemma InsertedIsSorted(p: Policy, xs: seq<Candidate>, ys: seq<Candidate>, c: Candidate)
    requires SortedBy(p, xs + ys)
    requires xs != [] ==> !Ahead(PlaceOf(p, c), PlaceOf(p, xs[|xs| - 1]))
    requires forall i :: 0 <= i < |ys| ==> Ahead(PlaceOf(p, c), PlaceOf(p, ys[i]))
    ensures IsStableSort(p, xs + ys + [c], xs + [c] + ys)
  {
    forall q: Place ensures At(p, xs + ys + [c], q) == At(p, xs + [c] + ys, q) {
      InsertedAt(p, xs, ys, c, q);
    }
    forall i | 0 <= i < |xs| ensures !Ahead(PlaceOf(p, c), PlaceOf(p, xs[i])) {
      if i < |xs| - 1 {
        assert (xs + ys)[i] == xs[i] && (xs + ys)[|xs| - 1] == xs[|xs| - 1];
        NotAheadTransitive(PlaceOf(p, c), PlaceOf(p, xs[|xs| - 1]), PlaceOf(p, xs[i]));
      }
    }
    SplicedIsSorted(p, xs, ys, c);
  }

  lemma NotAheadTransitive(x: Place, y: Place, z: Place)
    requires !Ahead(x, y) && !Ahead(y, z)
    ensures !Ahead(x, z)
  {
  }

  lemma SplicedIsSorted(p: Policy, xs: seq<Candidate>, ys: seq<Candidate>, c: Candidate)
    requires SortedBy(p, xs + ys)
    requires forall i :: 0 <= i < |xs| ==> !Ahead(PlaceOf(p, c), PlaceOf(p, xs[i]))
    requires forall i :: 0 <= i < |ys| ==> Ahead(PlaceOf(p, c), PlaceOf(p, ys[i]))
    ensures SortedBy(p, xs + [c] + ys)
  {
    var a, r := xs + ys, xs + [c] + ys;
    forall i, j | 0 <= i < j < |r| ensures !Ahead(PlaceOf(p, r[j]), PlaceOf(p, r[i])) {
      var i', j' := if i < |xs| then i else i - 1, if j < |xs| then j else j - 1;
      if i != |xs| && j != |xs| {
        assert r[i] == a[i'] && r[j] == a[j'];
      }
    }
  }

  lemma InsertedAt(p: Policy, xs: seq<Candidate>, ys: seq<Candidate>, c: Candidate, q: Place)
    requires forall i :: 0 <= i < |ys| ==> Ahead(PlaceOf(p, c), PlaceOf(p, ys[i]))
    ensures At(p, xs + ys + [c], q) == At(p, xs + [c] + ys, q)
  {
    AtAppend(p, xs + ys, [c], q);
    AtAppend(p, xs, ys, q);
    AtAppend(p, xs + [c], ys, q);
    AtAppend(p, xs, [c], q);
    if PlaceOf(p, c) == q {
      AtNowhere(p, ys, q);
    } else {
      AtNowhere(p, [c], q);
    }
  }

  /** Go's stable sort, by its specification. */
  method SortCandidates(p: Policy, cs: seq<Candidate>) returns (r: seq<Candidate>)
    ensures IsStableSort(p, cs, r)
    ensures forall x :: x in r ==> x in cs
  {
    r := [];
    for k := 0 to |cs|
      invariant IsStableSort(p, cs[..k], r)
      invariant forall x :: x in r ==> x in cs
    {
      var before := r;
      r := Insert(p, before, cs[k]);
      StepPlaces(p, cs[..k], before, cs[k], r);
      assert cs[..k + 1] == cs[..k] + [cs[k]];
    }
    assert cs[..|cs|] == cs;
  }

  lemma StepPlaces(p: Policy, xs: seq<Candidate>, ys: seq<Candidate>, c: Candidate, r: seq<Candidate>)
    requires SamePlaces(p, xs, ys) && SamePlaces(p, ys + [c], r)
    ensures SamePlaces(p, xs + [c], r)
  {
    forall q: Place ensures At(p, xs + [c], q) == At(p, r, q) {
      AtAppend(p, xs, [c], q);
      AtAppend(p, ys, [c], q);
    }
  }

  /** `cs` is the part of `all` at one stage, place by place. */
  ghost predicate StagePart(p: Policy, all: seq<Candidate>, cs: seq<Candidate>, stage: nat) {
    && (forall c :: c in cs ==> Stage(c) == stage)
    && (forall q: Place :: q.stage == stage ==> At(p, all, q) == At(p, cs, q))
  }

  lemma PartGrows(p: Policy, all: seq<Candidate>, cs: seq<Candidate>, stage: nat, more: seq<Candidate>, mine: seq<Candidate>)
    requires StagePart(p, all, cs, stage) && StagePart(p, more, mine, stage)
    ensures StagePart(p, all + more, cs + mine, stage)
  {
    forall q: Place | q.stage == stage ensures At(p, all + more, q) == At(p, cs + mine, q) {
      AtAppend(p, all, more, q);
      AtAppend(p, cs, mine, q);
    }
  }

  /** What one device adds to the list of a stage. */
  function Share(p: Policy, v: Provider, d: Device, stage: nat): seq<Candidate> {
    match v.kind
    case Copy => if stage == 0 then [Candidate(v.name, v.kind, d, CopyMode)] else []
    case CPU => if stage == 3 then [Candidate(v.name, v.kind, d, SoftwareMode)] else []
    case Hardware =>
      if p.ranks != map[] && Identity(v.name, d.id) !in p.ranks then []
      else if stage == 1 then [Candidate(v.name, v.kind, d, HardwareMode)]
      else if stage == 2 then [Candidate(v.name, v.kind, d, SoftwareMode)]
      else []
    case Unknown => []
  }

  lemma OneIsPart(p: Policy, c: Candidate, stage: nat)
    ensures StagePart(p, [c], if Stage(c) == stage then [c] else [], stage)
  {
    forall q: Place | q.stage == stage && Stage(c) != stage ensures At(p, [c], q) == [] {
      AtNowhere(p, [c], q);
    }
  }

  lemma ShareIsPart(p: Policy, v: Provider, d: Device, stage: nat)
    ensures StagePart(p, Offer(p, v.name, v.kind, d), Share(p, v, d, stage), stage)
  {
    var o := Offer(p, v.name, v.kind, d);
    if |o| == 1 {
      OneIsPart(p, o[0], stage);
    } else if |o| == 2 {
      var first, second := if Stage(o[0]) == stage then [o[0]] else [], if Stage(o[1]) == stage then [o[1]] else [];
      OneIsPart(p, o[0], stage);
      OneIsPart(p, o[1], stage);
      PartGrows(p, [o[0]], first, stage, [o[1]], second);
      assert o == [o[0]] + [o[1]] && Share(p, v, d, stage) == first + second;
    }
  }

  lemma SortKeepsPart(p: Policy, all: seq<Candidate>, cs: seq<Candidate>, r: seq<Candidate>, stage: nat)
    requires StagePart(p, all, cs, stage) && IsStableSort(p, cs, r) && forall x :: x in r ==> x in cs
    ensures StagePart(p, all, r, stage) && SortedBy(p, r)
  {
  }

  /** Stages joined in order are a stable sort of them all. */
  lemma JoinSorted(p: Policy, all: seq<Candidate>, joined: seq<Candidate>, cs: seq<Candidate>, stage: nat)
    requires JoinedUpTo(p, all, joined, stage) && StagePart(p, all, cs, stage) && SortedBy(p, cs)
    ensures JoinedUpTo(p, all, joined + cs, stage + 1)
  {
    LaterStagesFollow(p, joined, cs, stage);
    forall q: Place | q.stage < stage + 1 ensures At(p, all, q) == At(p, joined + cs, q) {
      AtAppend(p, joined, cs, q);
      if q.stage < stage {
        AtNowhere(p, cs, q);
      } else {
        AtNowhere(p, joined, q);
      }
    }
  }

  lemma LaterStagesFollow(p: Policy, joined: seq<Candidate>, cs: seq<Candidate>, stage: nat)
    requires SortedBy(p, joined) && SortedBy(p, cs)
    requires (forall c :: c in joined ==> Stage(c) < stage) && (forall c :: c in cs ==> Stage(c) == stage)
    ensures SortedBy(p, joined + cs)
  {
  }

  ghost predicate JoinedUpTo(p: Policy, all: seq<Candidate>, joined: seq<Candidate>, stage: nat) {
    && SortedBy(p, joined) && (forall c :: c in joined ==> Stage(c) < stage)
    && forall q: Place :: q.stage < stage ==> At(p, all, q) == At(p, joined, q)
  }

  ghost predicate AllKnown(cs: seq<Candidate>) { forall c :: c in cs ==> Stage(c) < 4 }

  lemma JoinedIsSort(p: Policy, all: seq<Candidate>, joined: seq<Candidate>)
    requires JoinedUpTo(p, all, joined, 4) && AllKnown(all)
    ensures IsStableSort(p, all, joined)
  {
    forall q: Place ensures At(p, all, q) == At(p, joined, q) {
      if q.stage >= 4 {
        AtNowhere(p, all, q);
        AtNowhere(p, joined, q);
      }
    }
  }

  ghost predicate FourParts(p: Policy, all: seq<Candidate>, copies: seq<Candidate>, decode: seq<Candidate>, upload: seq<Candidate>, cpus: seq<Candidate>) {
    && StagePart(p, all, copies, 0) && StagePart(p, all, decode, 1)
    && StagePart(p, all, upload, 2) && StagePart(p, all, cpus, 3)
    && AllKnown(all)
  }

  /** One device's offer goes to the lists of its stages. */
  method AddDevice(p: Policy, v: Provider, d: Device, ghost all: seq<Candidate>,
                   copies: seq<Candidate>, decode: seq<Candidate>, upload: seq<Candidate>, cpus: seq<Candidate>)
    returns (copies': seq<Candidate>, decode': seq<Candidate>, upload': seq<Candidate>, cpus': seq<Candidate>)
    requires FourParts(p, all, copies, decode, upload, cpus)
    ensures FourParts(p, all + Offer(p, v.name, v.kind, d), copies', decode', upload', cpus')
  {
    copies', decode', upload', cpus' := copies, decode, upload, cpus;
    match v.kind {
      case Copy => copies' := copies + [Candidate(v.name, v.kind, d, CopyMode)];
      case Hardware =>
        if p.ranks == map[] || Identity(v.name, d.id) in p.ranks {
          decode' := decode + [Candidate(v.name, v.kind, d, HardwareMode)];
          upload' := upload + [Candidate(v.name, v.kind, d, SoftwareMode)];
        }
      case CPU => cpus' := cpus + [Candidate(v.name, v.kind, d, SoftwareMode)];
      case Unknown =>
    }
    AddShare(p, v, d, all, copies, copies', 0);
    AddShare(p, v, d, all, decode, decode', 1);
    AddShare(p, v, d, all, upload, upload', 2);
    AddShare(p, v, d, all, cpus, cpus', 3);
  }

  lemma AddShare(p: Policy, v: Provider, d: Device, all: seq<Candidate>, cs: seq<Candidate>, cs': seq<Candidate>, stage: nat)
    requires StagePart(p, all, cs, stage) && cs' == cs + Share(p, v, d, stage)
    ensures StagePart(p, all + Offer(p, v.name, v.kind, d), cs', stage)
  {
    ShareIsPart(p, v, d, stage);
    PartGrows(p, all, cs, stage, Offer(p, v.name, v.kind, d), Share(p, v, d, stage));
  }

  /** Copies come first, the CPU last, and hardware that decodes before hardware that only encodes. */
  predicate StageBefore(x: Candidate, y: Candidate) {
    || (x.kind == Copy && y.kind != Copy)
    || (x.kind != CPU && y.kind == CPU)
    || (x.kind == Hardware && x.mode == HardwareMode && y.kind == Hardware && y.mode != HardwareMode)
  }

  predicate SameStage(x: Candidate, y: Candidate) {
    x.kind == y.kind && (x.kind == Hardware ==> (x.mode == HardwareMode <==> y.mode == HardwareMode))
  }

  function LoadOf(p: Policy, c: Candidate): nat { Used(p.used, c.name + "/" + c.device.id) }

  function RankOf(p: Policy, c: Candidate): nat { Used(p.ranks, c.name + "/" + c.device.id) }

  /** Of two candidates of a stage, which may come first: the less loaded device, then the better placed or the faster. */
  predicate MayPrecede(p: Policy, x: Candidate, y: Candidate) {
    if x.kind != Hardware then x.device.score >= y.device.score
    else
      LoadOf(p, x) < LoadOf(p, y) ||
      (LoadOf(p, x) == LoadOf(p, y) && if p.ranks == map[] then x.device.score >= y.device.score else RankOf(p, x) <= RankOf(p, y))
  }

  /** What the order of trial means. */
  lemma OrderMeans(p: Policy, cs: seq<Candidate>, i: nat, j: nat)
    requires SortedBy(p, cs) && i < j < |cs| && cs[i].kind != Unknown && cs[j].kind != Unknown
    ensures !StageBefore(cs[j], cs[i]) && (SameStage(cs[i], cs[j]) ==> MayPrecede(p, cs[i], cs[j]))
  {
    OrderOfTwo(p, cs[i], cs[j]);
  }

  lemma OrderOfTwo(p: Policy, x: Candidate, y: Candidate)
    requires !Ahead(PlaceOf(p, y), PlaceOf(p, x)) && x.kind != Unknown && y.kind != Unknown
    ensures !StageBefore(y, x) && (SameStage(x, y) ==> MayPrecede(p, x, y))
  {
  }

  /** What is offered: each device of a known kind in the way that kind works, a device twice, and only if the allow-list lets it. */
  predicate OfferedBySome(p: Policy, v: Provider, d: Device, c: Candidate) {
    && c.name == v.name && c.kind == v.kind && c.device == d
    && match v.kind
       case Copy => c.mode == CopyMode
       case CPU => c.mode == SoftwareMode
       case Hardware => c.mode != CopyMode && (p.ranks == map[] || v.name + "/" + d.id in p.ranks)
       case Unknown => false
  }

  lemma {:induction false} OfferedByIff(p: Policy, v: Provider, k: nat, c: Candidate)
    requires k <= |v.inventory|
    ensures c in OfferedBy(p, v, k) <==> exists d :: d in v.inventory[..k] && OfferedBySome(p, v, d, c)
  {
    if k > 0 {
      OfferedByIff(p, v, k - 1, c);
      var d := v.inventory[k - 1];
      assert v.inventory[..k] == v.inventory[..k - 1] + [d];
      OneOfferIff(p, v, d, c);
    }
  }

  lemma OneOfferIff(p: Policy, v: Provider, d: Device, c: Candidate)
    ensures c in Offer(p, v.name, v.kind, d) <==> OfferedBySome(p, v, d, c)
  {
  }

  lemma {:induction false} OfferedIff(p: Policy, vs: seq<Provider>, k: nat, c: Candidate)
    requires k <= |vs|
    ensures c in Offered(p, vs, k) <==> exists v, d :: v in vs[..k] && d in v.inventory && OfferedBySome(p, v, d, c)
  {
    if k > 0 {
      OfferedIff(p, vs, k - 1, c);
      var v := vs[k - 1];
      assert vs[..k] == vs[..k - 1] + [v];
      OfferedByIff(p, v, |v.inventory|, c);
      assert v.inventory[..|v.inventory|] == v.inventory;
    }
  }

  /** A stable sort has the same members. */
  lemma {:induction false} AtHas(p: Policy, cs: seq<Candidate>, c: Candidate)
    ensures c in cs <==> c in At(p, cs, PlaceOf(p, c))
    decreases |cs|
  {
    if cs != [] {
      AtHas(p, cs[..|cs| - 1], c);
      assert cs == cs[..|cs| - 1] + [cs[|cs| - 1]];
    }
  }

  lemma SortHasSame(p: Policy, xs: seq<Candidate>, ys: seq<Candidate>, c: Candidate)
    requires IsStableSort(p, xs, ys)
    ensures c in xs <==> c in ys
  {
    AtHas(p, xs, c);
    AtHas(p, ys, c);
  }

  /** What the manager tries, and in what order, in the providers' own terms. */
  ghost predicate TrialOrder(p: Policy, vs: seq<Provider>, cs: seq<Candidate>) {
    && (forall c :: c in cs <==> exists v, d :: v in vs && d in v.inventory && OfferedBySome(p, v, d, c))
    && (forall i, j :: 0 <= i < j < |cs| ==> !StageBefore(cs[j], cs[i]) && (SameStage(cs[i], cs[j]) ==> MayPrecede(p, cs[i], cs[j])))
  }

  lemma SortIsTrialOrder(p: Policy, vs: seq<Provider>, cs: seq<Candidate>)
    requires IsStableSort(p, Offered(p, vs, |vs|), cs)
    ensures TrialOrder(p, vs, cs)
  {
    assert vs[..|vs|] == vs;
    forall c ensures c in cs <==> exists v, d :: v in vs && d in v.inventory && OfferedBySome(p, v, d, c) {
      SortHasSame(p, Offered(p, vs, |vs|), cs, c);
      OfferedIff(p, vs, |vs|, c);
    }
    forall i, j | 0 <= i < j < |cs| ensures !StageBefore(cs[j], cs[i]) && (SameStage(cs[i], cs[j]) ==> MayPrecede(p, cs[i], cs[j])) {
      assert cs[i] in cs && cs[j] in cs;
      OrderMeans(p, cs, i, j);
    }
  }

  /**
   The candidates in the order they are tried: a stable sort of everything the providers offer, by stage,
   then load, then place in the allow-list or score. `p.used` is the load of each gate.
   */
  method ListCandidates(p: Policy, providers: seq<Provider>) returns (ordered: seq<Candidate>)
    ensures IsStableSort(p, Offered(p, providers, |providers|), ordered) && TrialOrder(p, providers, ordered)
  {
    var copies, decode, upload, cpus := [], [], [], [];
    for i := 0 to |providers|
      invariant FourParts(p, Offered(p, providers, i), copies, decode, upload, cpus)
    {
      var v := providers[i];
      ghost var before := Offered(p, providers, i);
      assert before + OfferedBy(p, v, 0) == before;
      for k := 0 to |v.inventory|
        invariant FourParts(p, before + OfferedBy(p, v, k), copies, decode, upload, cpus)
      {
        var d := v.inventory[k];
        assert before + OfferedBy(p, v, k) + Offer(p, v.name, v.kind, d) == before + OfferedBy(p, v, k + 1);
        copies, decode, upload, cpus := AddDevice(p, v, d, before + OfferedBy(p, v, k), copies, decode, upload, cpus);
      }
    }
    ghost var all := Offered(p, providers, |providers|);
    var r0 := SortCandidates(p, copies);
    SortKeepsPart(p, all, copies, r0, 0);
    var r1 := SortCandidates(p, decode);
    SortKeepsPart(p, all, decode, r1, 1);
    var r2 := SortCandidates(p, upload);
    SortKeepsPart(p, all, upload, r2, 2);
    var r3 := SortCandidates(p, cpus);
    SortKeepsPart(p, all, cpus, r3, 3);
    JoinFour(p, all, r0, r1, r2, r3);
    ordered := r0 + r1 + r2 + r3;
    SortIsTrialOrder(p, providers, ordered);
  }

  lemma JoinFour(p: Policy, all: seq<Candidate>, r0: seq<Candidate>, r1: seq<Candidate>, r2: seq<Candidate>, r3: seq<Candidate>)
    requires FourParts(p, all, r0, r1, r2, r3)
    requires SortedBy(p, r0) && SortedBy(p, r1) && SortedBy(p, r2) && SortedBy(p, r3)
    ensures IsStableSort(p, all, r0 + r1 + r2 + r3)
  {
    JoinSorted(p, all, [], r0, 0);
    assert [] + r0 == r0;
    JoinSorted(p, all, r0, r1, 1);
    JoinSorted(p, all, r0 + r1, r2, 2);
    JoinSorted(p, all, r0 + r1 + r2, r3, 3);
    JoinedIsSort(p, all, r0 + r1 + r2 + r3);
  }
}
