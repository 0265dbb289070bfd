/** Kernel candidates, and the choice among those that fit. */
module KernelRegistry {
  import opened Wrappers
  import opened Ordering
  import G = Graph

  datatype Kind =
    | Input | Embedding | Linear | RmsNorm | PerHeadRmsNorm | Rope | KvCacheWrite | KvCacheRead | Attention | ShortConv
    | Silu | Multiply | Residual | OutputProjection

  function KindOf(o: G.OpKind): Kind {
    match o
    case Input => Kind.Input
    case Embedding => Kind.Embedding
    case Linear(_) => Kind.Linear
    case RmsNorm(_) => Kind.RmsNorm
    case PerHeadRmsNorm(_, _, _) => Kind.PerHeadRmsNorm
    case Rope(_, _, _) => Kind.Rope
    case KvCacheWrite(_, _) => Kind.KvCacheWrite
    case KvCacheRead(_, _) => Kind.KvCacheRead
    case Attention(_, _, _) => Kind.Attention
    case ShortConv(_, _, _) => Kind.ShortConv
    case Silu => Kind.Silu
    case Multiply => Kind.Multiply
    case Residual => Kind.Residual
    case OutputProjection => Kind.OutputProjection
  }

  predicate IsSensitive(k: Kind) { k.RmsNorm? || k.PerHeadRmsNorm? || k.Rope? || k.Attention? }

  datatype Scalar = F32 | F16 | Bf16 | F64 | I8 | I16 | I32 | I64 | U8 | U16 | U32 | U64 | Bool

  datatype EncodingKey = EncodingKey(id: string, version: nat)
  datatype Orientation = Native | LogicalTranspose
  datatype AxisMultiple = AxisMultiple(axis: nat, multipleOf: nat)

  datatype Candidate = Candidate(id: string, operation: Kind, encoding: Option<EncodingKey>,
                                 inputTypes: seq<Scalar>, outputTypes: seq<Scalar>, accumulatorTypes: seq<Scalar>,
                                 logicalRank: Option<nat>, axisMultiples: seq<AxisMultiple>,
                                 orientations: seq<Orientation>, backends: seq<string>, exactArchitectures: seq<string>,
                                 requiredFeatures: seq<string>, modes: seq<G.Mode>, lowering: string, score: int,
                                 production: bool)

  datatype Request = Request(operation: Kind, encoding: Option<EncodingKey>, logicalShape: Option<seq<nat>>,
                             orientation: Orientation, mode: G.Mode, sensitiveType: Scalar)

  datatype Target = Target(driver: string, architecture: Option<string>, features: seq<string>)

  datatype Error = DuplicateCandidate | NoScore

  // ---- which candidates fit ----

  predicate BackendFits(c: Candidate, t: Target) { "any" in c.backends || t.driver in c.backends }

  predicate ArchitectureFits(c: Candidate, t: Target) {
    c.exactArchitectures == [] || (t.architecture.Some? && t.architecture.value in c.exactArchitectures)
  }

  predicate RankFits(c: Candidate, r: Request) {
    r.logicalShape.Some? && c.logicalRank.Some? ==> |r.logicalShape.value| == c.logicalRank.value
  }

  predicate Divides(a: AxisMultiple, shape: seq<nat>) {
    a.axis < |shape| ==> a.multipleOf != 0 && shape[a.axis] % a.multipleOf == 0
  }

  predicate OrientationFits(c: Candidate, r: Request) { c.orientations == [] || r.orientation in c.orientations }

  predicate HasTypes(c: Candidate) { c.inputTypes != [] && c.outputTypes != [] && c.accumulatorTypes != [] }

  /** The candidate can do what is asked, on this target. */
  predicate Accepts(c: Candidate, r: Request, t: Target) {
    && c.encoding == r.encoding && c.production && r.mode in c.modes
    && BackendFits(c, t) && ArchitectureFits(c, t) && (forall f :: f in c.requiredFeatures ==> f in t.features)
    && RankFits(c, r) && (r.logicalShape.Some? ==> forall a :: a in c.axisMultiples ==> Divides(a, r.logicalShape.value))
    && OrientationFits(c, r) && HasTypes(c)
    && (IsSensitive(r.operation) ==> r.sensitiveType in c.accumulatorTypes)
  }

  datatype Reason =
    | EncodingMismatch | NotProductionReady | ModeMismatch | BackendMismatch | ArchitectureMismatch
    | MissingTargetFeature(feature: string) | RankMismatch(expected: nat, actual: nat)
    | AxisNotDivisible(axis: nat, dimension: nat, multipleOf: nat) | OrientationMismatch | PrecisionFloor
    | MissingTypeChoice

  ghost predicate AxisApplies(x: Reason, multiples: seq<AxisMultiple>, shape: seq<nat>)
    requires x.AxisNotDivisible?
  {
    exists a :: a in multiples && !Divides(a, shape) && x == AxisNotDivisible(a.axis, shape[a.axis], a.multipleOf)
  }

  /** A reason to refuse the candidate. */
  ghost predicate Applies(x: Reason, c: Candidate, r: Request, t: Target) {
    match x
    case EncodingMismatch => c.encoding != r.encoding
    case NotProductionReady => !c.production
    case ModeMismatch => r.mode !in c.modes
    case BackendMismatch => !BackendFits(c, t)
    case ArchitectureMismatch => !ArchitectureFits(c, t)
    case MissingTargetFeature(f) => f in c.requiredFeatures && f !in t.features
    case RankMismatch(expected, actual) =>
      !RankFits(c, r) && expected == c.logicalRank.value && actual == |r.logicalShape.value|
    case AxisNotDivisible(_, _, _) => r.logicalShape.Some? && AxisApplies(x, c.axisMultiples, r.logicalShape.value)
    case OrientationMismatch => !OrientationFits(c, r)
    case PrecisionFloor => HasTypes(c) && IsSensitive(r.operation) && r.sensitiveType !in c.accumulatorTypes
    case MissingTypeChoice => !HasTypes(c)
  }

  /** A candidate is accepted exactly when nothing speaks against it. */
  lemma AcceptedUnlessRefused(c: Candidate, r: Request, t: Target)
    ensures Accepts(c, r, t) <==> forall x :: !Applies(x, c, r, t)
  {
    if !Accepts(c, r, t) {
      if f :| f in c.requiredFeatures && f !in t.features {
        assert Applies(MissingTargetFeature(f), c, r, t);
      } else if r.logicalShape.Some? && exists a :: a in c.axisMultiples && !Divides(a, r.logicalShape.value) {
        var shape := r.logicalShape.value;
        var a :| a in c.axisMultiples && !Divides(a, shape);
        assert Applies(AxisNotDivisible(a.axis, shape[a.axis], a.multipleOf), c, r, t);
      } else if !RankFits(c, r) {
        assert Applies(RankMismatch(c.logicalRank.value, |r.logicalShape.value|), c, r, t);
      } else {
        assert || Applies(EncodingMismatch, c, r, t) || Applies(NotProductionReady, c, r, t)
               || Applies(ModeMismatch, c, r, t) || Applies(BackendMismatch, c, r, t)
               || Applies(ArchitectureMismatch, c, r, t) || Applies(OrientationMismatch, c, r, t)
               || Applies(PrecisionFloor, c, r, t) || Applies(MissingTypeChoice, c, r, t);
      }
    }
  }

  method MissingFeatures(required: seq<string>, present: seq<string>) returns (reasons: seq<Reason>)
    ensures forall x :: x in reasons <==> x.MissingTargetFeature? && x.feature in required && x.feature !in present
  {
    reasons := [];
    for i := 0 to |required|
      invariant forall x :: x in reasons <==>
                  x.MissingTargetFeature? && x.feature in required[..i] && x.feature !in present
    {
      if required[i] !in present {
        reasons := reasons + [MissingTargetFeature(required[i])];
      }
    }
  }

  method BadAxes(multiples: seq<AxisMultiple>, shape: seq<nat>) returns (reasons: seq<Reason>)
    ensures forall x :: x in reasons <==> x.AxisNotDivisible? && AxisApplies(x, multiples, shape)
  {
    reasons := [];
    for i := 0 to |multiples|
      invariant forall x :: x in reasons <==> x.AxisNotDivisible? && AxisApplies(x, multiples[..i], shape)
    {
      var a := multiples[i];
      ghost var before := reasons;
      assert multiples[..i + 1] == multiples[..i] + [a];
      if a.axis < |shape| && (a.multipleOf == 0 || shape[a.axis] % a.multipleOf != 0) {
        reasons := reasons + [AxisNotDivisible(a.axis, shape[a.axis], a.multipleOf)];
      }
      forall x: Reason | x.AxisNotDivisible?
        ensures AxisApplies(x, multiples[..i + 1], shape)
           <==> AxisApplies(x, multiples[..i], shape)
                || (!Divides(a, shape) && x == AxisNotDivisible(a.axis, shape[a.axis], a.multipleOf))
      {
        assert a in multiples[..i + 1];
      }
    }
    assert multiples[..|multiples|] == multiples;
  }

  predicate AboutTarget(x: Reason) {
    x.EncodingMismatch? || x.NotProductionReady? || x.ModeMismatch? || x.BackendMismatch? || x.ArchitectureMismatch?
    || x.MissingTargetFeature?
  }

  method TargetReasons(c: Candidate, r: Request, t: Target) returns (reasons: seq<Reason>)
    ensures forall x :: x in reasons <==> AboutTarget(x) && Applies(x, c, r, t)
  {
    reasons := [];
    if c.encoding != r.encoding {
      reasons := reasons + [EncodingMismatch];
    }
    if !c.production {
      reasons := reasons + [NotProductionReady];
    }
    if r.mode !in c.modes {
      reasons := reasons + [ModeMismatch];
    }
    if !BackendFits(c, t) {
      reasons := reasons + [BackendMismatch];
    }
    if !ArchitectureFits(c, t) {
      reasons := reasons + [ArchitectureMismatch];
    }
    var features := MissingFeatures(c.requiredFeatures, t.features);
    reasons := reasons + features;
  }

  method ContractReasons(c: Candidate, r: Request, t: Target) returns (reasons: seq<Reason>)
    ensures forall x :: x in reasons <==> !AboutTarget(x) && Applies(x, c, r, t)
  {
    reasons := [];
    if !RankFits(c, r) {
      reasons := reasons + [RankMismatch(c.logicalRank.value, |r.logicalShape.value|)];
    }
    if r.logicalShape.Some? {
      var axes := BadAxes(c.axisMultiples, r.logicalShape.value);
      reasons := reasons + axes;
    }
    if !OrientationFits(c, r) {
      reasons := reasons + [OrientationMismatch];
    }
    if !HasTypes(c) {
      reasons := reasons + [MissingTypeChoice];
    } else if IsSensitive(r.operation) && r.sensitiveType !in c.accumulatorTypes {
      reasons := reasons + [PrecisionFloor];
    }
  }

  /** Every reason against the candidate, and nothing else. */
  method RejectionReasons(c: Candidate, r: Request, t: Target) returns (reasons: seq<Reason>)
    ensures forall x :: x in reasons <==> Applies(x, c, r, t)
    ensures reasons == [] <==> Accepts(c, r, t)
  {
    var target := TargetReasons(c, r, t);
    var contract := ContractReasons(c, r, t);
    reasons := target + contract;
    AcceptedUnlessRefused(c, r, t);
    if reasons != [] {
      assert reasons[0] in reasons;
    }
  }

  // ---- scores ----

  type CostModel = (Candidate, Target) -> Result<int, Error>

  const EXACT_BACKEND_BONUS := 1000

  function DeterministicCost(c: Candidate, t: Target): Result<int, Error> {
    Ok(c.score + if t.driver in c.backends then EXACT_BACKEND_BONUS else 0)
  }

  // ---- the choice ----

  datatype Selected = Selected(descriptor: Candidate, inputType: Scalar, outputType: Scalar, activationType: Scalar,
                               accumulatorType: Scalar, score: int)

  datatype Rejection = Rejection(candidateId: string, reasons: seq<Reason>)
  datatype Report = Report(selected: Option<Selected>, rejected: seq<Rejection>)

  /** The first types offered; a sensitive operation accumulates in the type of the policy. */
  function SelectedFor(c: Candidate, r: Request, score: int): Selected
    requires HasTypes(c)
  {
    Selected(c, c.inputTypes[0], c.outputTypes[0], c.inputTypes[0],
             if IsSensitive(r.operation) then r.sensitiveType else c.accumulatorTypes[0], score)
  }

  /** Candidates for the operation that have no reason against them. */
  predicate Eligible(c: Candidate, r: Request, t: Target) { c.operation == r.operation && Accepts(c, r, t) }

  predicate Before(a: Selected, b: Selected) {
    a.score > b.score || (a.score == b.score && LexLe(a.descriptor.id, b.descriptor.id))
  }

  lemma BeforeIsOrder()
    ensures TotalPreorder(Before)
  {
    LexLeIsOrder();
    forall x, y ensures Before(x, y) || Before(y, x) {
    }
    forall x, y, z | Before(x, y) && Before(y, z) ensures Before(x, z) {
    }
  }

  /** A highest score, and among those the least name. */
  ghost predicate IsBest(c: Candidate, candidates: seq<Candidate>, r: Request, t: Target, cost: CostModel) {
    && c in candidates && Eligible(c, r, t) && cost(c, t).Ok?
    && forall d :: d in candidates && Eligible(d, r, t) ==>
         && cost(d, t).Ok?
         && (cost(c, t).value > cost(d, t).value || (cost(c, t).value == cost(d, t).value && LexLe(c.id, d.id)))
  }

  ghost predicate DistinctIds(candidates: seq<Candidate>) {
    forall i, j :: 0 <= i < j < |candidates| ==> candidates[i].id != candidates[j].id
  }

  /** What is selected, of whom and with which types, or that nobody is eligible. */
  ghost predicate IsSelection(s: Option<Selected>, candidates: seq<Candidate>, r: Request, t: Target, cost: CostModel) {
    if s.None? then forall d :: d in candidates ==> !Eligible(d, r, t)
    else
      var c := s.value.descriptor;
      IsBest(c, candidates, r, t, cost) && HasTypes(c) && s.value == SelectedFor(c, r, cost(c, t).value)
  }

  /** The sorted list of those accepted has the best in front. */
  lemma FirstIsSelection(accepted: seq<Selected>, candidates: seq<Candidate>, r: Request, t: Target, cost: CostModel)
    requires forall s :: s in accepted ==>
      && s.descriptor in candidates && Eligible(s.descriptor, r, t) && cost(s.descriptor, t).Ok?
      && s == SelectedFor(s.descriptor, r, cost(s.descriptor, t).value)
    requires forall d :: d in candidates && Eligible(d, r, t) ==>
      cost(d, t).Ok? && SelectedFor(d, r, cost(d, t).value) in accepted
    ensures var sorted := Sort(Before, accepted);
            IsSelection(if sorted == [] then None else Some(sorted[0]), candidates, r, t, cost)
  {
    var sorted := Sort(Before, accepted);
    BeforeIsOrder();
    SortSorted(Before, accepted);
    forall s ensures s in sorted <==> s in accepted {
      assert s in sorted <==> s in multiset(sorted);
      assert s in accepted <==> s in multiset(accepted);
    }
    if sorted != [] {
      assert sorted[0] in sorted;
      LexLeIsOrder();
      forall d | d in candidates && Eligible(d, r, t)
        ensures Before(sorted[0], SelectedFor(d, r, cost(d, t).value))
      {
        var s := SelectedFor(d, r, cost(d, t).value);
        assert s in sorted;
        var k :| 0 <= k < |sorted| && sorted[k] == s;
        assert k > 0 ==> Before(sorted[0], sorted[k]);
      }
    } else {
      assert accepted == [];
    }
  }

  class Registry {
    var candidates: seq<Candidate>

    ghost predicate Valid()
      reads this
    {
      DistinctIds(candidates)
    }

    constructor ()
      ensures Valid() && candidates == []
    {
      candidates := [];
    }

    /** Adds a candidate under a new name. */
    method Register(c: Candidate) returns (r: Result<(), Error>)
      requires Valid()
      modifies this
      ensures Valid()
      ensures r.Ok? <==> forall d :: d in old(candidates) ==> d.id != c.id
      ensures candidates == if r.Ok? then old(candidates) + [c] else old(candidates)
    {
      for i := 0 to |candidates|
        invariant candidates == old(candidates) && forall k :: 0 <= k < i ==> candidates[k].id != c.id
      {
        if candidates[i].id == c.id {
          assert candidates[i] in candidates;
          return Err(DuplicateCandidate);
        }
      }
      candidates := candidates + [c];
      return Ok(());
    }

    /** The best of the eligible candidates, and for each other candidate of the operation why it was refused. */
    method Select(r: Request, t: Target, cost: CostModel) returns (report: Result<Report, Error>)
      ensures report.Err? <==> exists d :: d in candidates && Eligible(d, r, t) && cost(d, t).Err?
      ensures report.Ok? ==> IsSelection(report.value.selected, candidates, r, t, cost)
      ensures report.Ok? ==> forall d :: d in candidates && d.operation == r.operation && !Accepts(d, r, t) ==>
                exists e :: e in report.value.rejected && e.candidateId == d.id && e.reasons != []
                            && forall x :: x in e.reasons <==> Applies(x, d, r, t)
      ensures report.Ok? ==> forall e :: e in report.value.rejected ==>
                exists d :: d in candidates && d.id == e.candidateId && d.operation == r.operation && !Accepts(d, r, t)
    {
      var accepted: seq<Selected>, rejected: seq<Rejection> := [], [];
      for i := 0 to |candidates|
        invariant forall s :: s in accepted ==>
          && s.descriptor in candidates && Eligible(s.descriptor, r, t) && cost(s.descriptor, t).Ok?
          && s == SelectedFor(s.descriptor, r, cost(s.descriptor, t).value)
        invariant forall k :: 0 <= k < i && Eligible(candidates[k], r, t) ==>
          cost(candidates[k], t).Ok? && SelectedFor(candidates[k], r, cost(candidates[k], t).value) in accepted
        invariant forall k :: 0 <= k < i && candidates[k].operation == r.operation && !Accepts(candidates[k], r, t) ==>
          exists e :: e in rejected && e.candidateId == candidates[k].id && e.reasons != []
                      && forall x :: x in e.reasons <==> Applies(x, candidates[k], r, t)
        invariant forall e :: e in rejected ==>
          exists d :: d in candidates && d.id == e.candidateId && d.operation == r.operation && !Accepts(d, r, t)
      {
        var c := candidates[i];
        if c.operation == r.operation {
          var reasons := RejectionReasons(c, r, t);
          assert c in candidates;
          if reasons == [] {
            var score := cost(c, t);
            if score.Err? {
              return Err(score.error);
            }
            accepted := accepted + [SelectedFor(c, r, score.value)];
          } else {
            ghost var before := rejected;
            rejected := rejected + [Rejection(c.id, reasons)];
            assert Rejection(c.id, reasons) in rejected;
            assert forall e :: e in before ==> e in rejected;
          }
        }
      }
      FirstIsSelection(accepted, candidates, r, t, cost);
      var sorted := Sort(Before, accepted);
      return Ok(Report(if sorted == [] then None else Some(sorted[0]), rejected));
    }
  }

  // ---- the choice depends on nothing but the set of candidates ----

  lemma SameName(candidates: seq<Candidate>, c: Candidate, d: Candidate)
    requires DistinctIds(candidates) && c in candidates && d in candidates && c.id == d.id
    ensures c == d
  {
    var i :| 0 <= i < |candidates| && candidates[i] == c;
    var j :| 0 <= j < |candidates| && candidates[j] == d;
  }

  /** Registering the same candidates in any order selects the same kernel. */
  lemma OrderIndependent(candidates: seq<Candidate>, others: seq<Candidate>, r: Request, t: Target, cost: CostModel,
                         s: Option<Selected>, s': Option<Selected>)
    requires DistinctIds(candidates) && forall c :: c in candidates <==> c in others
    requires IsSelection(s, candidates, r, t, cost) && IsSelection(s', others, r, t, cost)
    ensures s == s'
  {
    if s.Some? && s'.Some? {
      var c, d := s.value.descriptor, s'.value.descriptor;
      LexLeTotal(c.id, d.id);
      SameName(candidates, c, d);
    }
  }

  /** A kernel is selected whenever one is eligible. */
  lemma SelectedIfAny(candidates: seq<Candidate>, r: Request, t: Target, cost: CostModel, s: Option<Selected>)
    requires IsSelection(s, candidates, r, t, cost)
    ensures s.Some? <==> exists c :: c in candidates && Eligible(c, r, t)
  {
  }

  /** Among scores below the bonus, a candidate for the very backend is preferred to one for any. */
  lemma ExactBackendWins(candidates: seq<Candidate>, r: Request, t: Target, s: Selected)
    requires IsSelection(Some(s), candidates, r, t, DeterministicCost)
    requires forall c :: c in candidates ==> 0 <= c.score < EXACT_BACKEND_BONUS
    requires exists c :: c in candidates && Eligible(c, r, t) && t.driver in c.backends
    ensures t.driver in s.descriptor.backends
  {
  }
}
