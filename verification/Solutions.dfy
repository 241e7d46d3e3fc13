/** Solution classes, incident lifecycles and the preference order between sources
    (internal/domain/earthquake/correlation.go). */
module Solutions {

  datatype SolutionClass = PreliminarySolution | ConfirmedSolution | ReviewedSolution | RetractedSolution

  datatype Lifecycle = Retracted | Preliminary | Confirmed | Reviewed

  /** The rank that orders solutions by quality; a retraction has none. */
  function SolutionRank(solution: SolutionClass): nat {
    match solution
    case PreliminarySolution => 1
    case ConfirmedSolution => 2
    case ReviewedSolution => 3
    case RetractedSolution => 0
  }

  function LifecycleRank(lifecycle: Lifecycle): nat {
    match lifecycle
    case Retracted => 0
    case Preliminary => 1
    case Confirmed => 2
    case Reviewed => 3
  }

  /** `lifecycle` is the one that the evidence `solutions` supports: the quality of the best solution that
      is not retracted, and retracted only when there is none. */
  ghost predicate Supports(solutions: iset<SolutionClass>, lifecycle: Lifecycle) {
    && (forall solution <- solutions :: SolutionRank(solution) <= LifecycleRank(lifecycle))
    && (lifecycle != Retracted ==> exists solution <- solutions :: SolutionRank(solution) == LifecycleRank(lifecycle))
  }

  lemma SupportedLifecycleIsUnique(solutions: iset<SolutionClass>, a: Lifecycle, b: Lifecycle)
    requires Supports(solutions, a) && Supports(solutions, b)
    ensures a == b
  {
    assert LifecycleRank(a) == LifecycleRank(b);
  }

  /** The lifecycle that a body of evidence supports. */
  ghost function Resolve(solutions: iset<SolutionClass>): (lifecycle: Lifecycle)
    ensures Supports(solutions, lifecycle)
  {
    if ReviewedSolution in solutions then Reviewed
    else if ConfirmedSolution in solutions then Confirmed
    else if PreliminarySolution in solutions then Preliminary
    else Retracted
  }

  ghost function Evidence(solutions: seq<SolutionClass>): iset<SolutionClass> {
    iset solution | solution in solutions
  }

  method ResolveLifecycle(solutions: seq<SolutionClass>) returns (lifecycle: Lifecycle)
    ensures lifecycle == Resolve(Evidence(solutions))
  {
    var best := 0;
    for i := 0 to |solutions|
      invariant 0 <= best <= 3
      invariant forall solution <- solutions[..i] :: SolutionRank(solution) <= best
      invariant best > 0 ==> exists solution <- solutions[..i] :: SolutionRank(solution) == best
    {
      var rank := SolutionRank(solutions[i]);
      assert solutions[i] in solutions[..i + 1];
      if rank > best {
        best := rank;
      }
    }
    assert solutions[..|solutions|] == solutions;
    match best
    case 3 => lifecycle := Reviewed;
    case 2 => lifecycle := Confirmed;
    case 1 => lifecycle := Preliminary;
    case _ => lifecycle := Retracted;
    SupportedLifecycleIsUnique(Evidence(solutions), lifecycle, Resolve(Evidence(solutions)));
  }

  /** The stronger of two solutions; a retraction is never undone and never taken from stale evidence. */
  function StrongerSolution(current: SolutionClass, incoming: SolutionClass): SolutionClass {
    if current == RetractedSolution then
      current
    else if SolutionRank(incoming) > SolutionRank(current) then
      incoming
    else
      current
  }

  /** A place on the chain preliminary < confirmed < reviewed < retracted that a source climbs. */
  function Rung(solution: SolutionClass): nat {
    if solution == RetractedSolution then 4 else SolutionRank(solution)
  }

  function ProviderPriority(provider: string): nat {
    match provider
    case "kndc" => 4
    case "usgs" => 3
    case "geofon" => 2
    case "emsc" => 1
    case _ => 0
  }

  predicate CorrelatedCatalogProvider(provider: string) {
    provider == "emsc" || provider == "usgs" || provider == "geofon" || provider == "kndc"
  }

  predicate PreferCanonicalSource(currentProvider: string, currentSolution: SolutionClass,
                                  incomingProvider: string, incomingSolution: SolutionClass)
  {
    var currentRank, incomingRank := SolutionRank(currentSolution), SolutionRank(incomingSolution);
    if incomingRank != currentRank then
      incomingRank > currentRank
    else
      ProviderPriority(incomingProvider) > ProviderPriority(currentProvider)
  }

  /** What a source brings to the choice of the canonical one. */
  datatype Standing = Standing(provider: string, solution: SolutionClass)

  predicate Beats(a: Standing, b: Standing) {
    PreferCanonicalSource(b.provider, b.solution, a.provider, a.solution)
  }

  /** Preference is a strict order on all sources, and total on sources of different catalogue providers. */
  lemma PreferenceIsStrictTotalOrder(a: Standing, b: Standing, c: Standing)
    ensures !Beats(a, a)
    ensures Beats(a, b) ==> !Beats(b, a)
    ensures Beats(a, b) && Beats(b, c) ==> Beats(a, c)
    ensures CorrelatedCatalogProvider(a.provider) && CorrelatedCatalogProvider(b.provider) && a.provider != b.provider
            ==> Beats(a, b) || Beats(b, a)
  {
  }

  /** The catalogues in order of preference. */
  const CATALOGUES: seq<string> := ["kndc", "usgs", "geofon", "emsc"]

  /** The provider's place among the catalogues; behind them all for any other provider. */
  predicate IsPlace(provider: string, place: nat) {
    place <= 4 && if place < 4 then provider == CATALOGUES[place] else provider !in CATALOGUES
  }

  /** A better class is preferred, and among equal classes an earlier catalogue: reviewed before confirmed before preliminary
      before retracted, and KNDC before USGS before GEOFON before EMSC before all others. */
  lemma BeatsExactlyWhen(a: Standing, b: Standing, place: nat, other: nat)
    requires IsPlace(a.provider, place) && IsPlace(b.provider, other)
    ensures Beats(a, b) <==>
            if a.solution != b.solution then
              a.solution == ReviewedSolution
              || (a.solution == ConfirmedSolution && b.solution != ReviewedSolution)
              || (a.solution == PreliminarySolution && b.solution == RetractedSolution)
            else
              place < other
  {
    assert CATALOGUES[0] == "kndc" && CATALOGUES[1] == "usgs" && CATALOGUES[2] == "geofon" && CATALOGUES[3] == "emsc";
  }
}
