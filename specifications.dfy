/**
 * The composite specifications over entities: `OrSpecification` folds its components with `||`
 * from the seed `true`, and `NotSpecification` negates one component. Any other
 * `ISpecification` is a leaf: a predicate on entities.
 */
module Specifications {
  import opened Wrappers
  import opened Entities

  datatype Spec =
    | Leaf(holds: Entity -> bool)
    | Or(parts: seq<Spec>)
    | Not(inner: Spec)

  /** `new OrSpecification(spec)`: a null array is refused. */
  function NewOr(specs: Option<seq<Spec>>): (r: Result<Spec>)
    ensures specs.None? <==> r == Fail(ArgumentNull)
    ensures specs.Some? ==> r == Ok(Or(specs.value))
  {
    if specs.None? then Fail(ArgumentNull) else Ok(Or(specs.value))
  }

  /** `new NotSpecification(spec)`: a null component is refused. */
  function NewNot(spec: Option<Spec>): (r: Result<Spec>)
    ensures spec.None? <==> r == Fail(ArgumentNull)
    ensures spec.Some? ==> r == Ok(Not(spec.value))
  {
    if spec.None? then Fail(ArgumentNull) else Ok(Not(spec.value))
  }

  /** `IsSatisfiedBy(entity)`. */
  function IsSatisfiedBy(s: Spec, e: Entity): bool
    decreases s, 1
  {
    match s
    case Leaf(holds) => holds(e)
    case Or(parts) => Fold(parts, e, true)
    case Not(inner) => !IsSatisfiedBy(inner, e)
  }

  /** `parts.Aggregate(seed, (current, spec) => current || spec.IsSatisfiedBy(entity))`, `||` short-circuiting. */
  function Fold(parts: seq<Spec>, e: Entity, current: bool): bool
    decreases parts, 0
  {
    if parts == [] then current
    else Fold(parts[1..], e, current || IsSatisfiedBy(parts[0], e))
  }

  /** How many times the fold calls a component's `IsSatisfiedBy`. */
  function FoldEvaluations(parts: seq<Spec>, e: Entity, current: bool): nat
    decreases parts
  {
    if parts == [] then 0
    else if current then FoldEvaluations(parts[1..], e, true)
    else 1 + FoldEvaluations(parts[1..], e, IsSatisfiedBy(parts[0], e))
  }

  /** A fold that starts from `true` stays `true` and never evaluates a component. */
  lemma {:induction false} FoldFromTrue(parts: seq<Spec>, e: Entity)
    ensures Fold(parts, e, true)
    ensures FoldEvaluations(parts, e, true) == 0
  {
    if parts != [] {
      FoldFromTrue(parts[1..], e);
    }
  }

  /**
   * `OrSpecification.IsSatisfiedBy` holds for every entity, with any components, none included,
   * and evaluates none of them.
   */
  lemma OrAlwaysHolds(parts: seq<Spec>, e: Entity)
    ensures IsSatisfiedBy(Or(parts), e)
    ensures IsSatisfiedBy(Or([]), e)
    ensures FoldEvaluations(parts, e, true) == 0
  {
    FoldFromTrue(parts, e);
  }

  /** `NotSpecification` negates its component, so a double negation agrees with the component. */
  lemma NotNegates(s: Spec, e: Entity)
    ensures IsSatisfiedBy(Not(s), e) == !IsSatisfiedBy(s, e)
    ensures IsSatisfiedBy(Not(Not(s)), e) == IsSatisfiedBy(s, e)
  {
  }

  /** Negating an `OrSpecification` gives a specification no entity satisfies. */
  lemma NotOrNeverHolds(parts: seq<Spec>, e: Entity)
    ensures !IsSatisfiedBy(Not(Or(parts)), e)
  {
    FoldFromTrue(parts, e);
  }

  /** The fold an `OrSpecification` evidently intends, seeded with `false`. */
  function IsSatisfiedByAny(parts: seq<Spec>, e: Entity): bool
  {
    Fold(parts, e, false)
  }

  /** From any seed, the fold is the seed or'ed with the components' verdicts. */
  lemma {:induction false} FoldIsDisjunction(parts: seq<Spec>, e: Entity, current: bool)
    ensures Fold(parts, e, current) <==> current || exists i :: 0 <= i < |parts| && IsSatisfiedBy(parts[i], e)
  {
    if parts != [] {
      FoldIsDisjunction(parts[1..], e, current || IsSatisfiedBy(parts[0], e));
      if exists i :: 0 <= i < |parts| && IsSatisfiedBy(parts[i], e) {
        var i :| 0 <= i < |parts| && IsSatisfiedBy(parts[i], e);
        if i > 0 {
          assert parts[1..][i - 1] == parts[i];
        }
      }
      if exists i :: 0 <= i < |parts[1..]| && IsSatisfiedBy(parts[1..][i], e) {
        var i :| 0 <= i < |parts[1..]| && IsSatisfiedBy(parts[1..][i], e);
        assert parts[i + 1] == parts[1..][i];
      }
    }
  }

  /** Seeded with `false`, the fold holds exactly when some component does; with no components it fails. */
  lemma AnyIsDisjunction(parts: seq<Spec>, e: Entity)
    ensures IsSatisfiedByAny(parts, e) <==> exists i :: 0 <= i < |parts| && IsSatisfiedBy(parts[i], e)
    ensures !IsSatisfiedByAny([], e)
  {
    FoldIsDisjunction(parts, e, false);
  }
}
