# Partial-order step reasoning

This project models the step layer of a partial-order planner. A *step* wraps one
grounded action instance (a `LogicalInstance`: an action schema together with its own
variable context). The model covers four questions a plan-repair process asks about
a step:

- `asserts`: does the step assert a target proposition?
- `isThreatening`: does the step threaten a precondition of another step?
- `destroys`: does the step destroy a given precondition? This comes in a
  single-atom form and an all-consequences form.

Each answer combines a polarity test on the atoms' negation flags with a call to
the unifier of the `logic` package. For the calls that take a
codenotation-constraint (variable-binding) set, the unifier runs on a copy of the
caller's set.

Files:

- `logic.dfy` (module `Logic`) holds the shapes of the logic package that the
  steps use: atoms, predicates, contexts, actions, instances, and a
  `CodenotationConstraints` class with `Copy` and an in-place `Unify`. The
  unifier itself is an uninterpreted oracle, `Unifier`. It has two total
  functions: `extend`, the form with a binding set, and `probe`, the form
  without one. Every property below holds for every oracle. `FailsOnNameMismatch`
  states the fail-fast rule expected of `Predicate.unify` on predicate names. Lemmas that
  need that rule take it as a hypothesis.
- `step.dfy` (module `Pop`) holds the `Step` datatype, a value with structural
  equality. It has:
  - the two shortcuts `Preconditions` and `Consequences`;
  - specification predicates (`AssertsPropositionUnder`, `AssertsUnder`,
    `Clobbers`, `IsThreatening`, `DestroysPropositionUnder`, `DestroysUnder`);
  - the methods that mirror the source's loops and copies (`AssertsProposition`,
    `Asserts`, `DestroysProposition`, `Destroys`). Each method is proved equal to
    its specification predicate, evaluated on the caller's bindings.
- `step_properties.dfy` (module `StepProperties`) holds the lemmas.

Non-interference: the step methods have no `modifies` clause. Dafny's frame rule
therefore proves that the caller's `CodenotationConstraints` object is left exactly
as it was. The only object changed is the fresh copy that `Copy` returns and
`Unify` extends. Each candidate atom gets its own copy. This is why every
specification predicate judges every candidate against the same caller bindings.

The model keeps three literal behaviours of the code:

- `asserts` scans the step's **preconditions**, not its consequences.
- In `asserts` and in the atom form of `destroys`, the target atom's predicate is
  unified under **this step's** context. The target's own context is never
  consulted.
- The `context` argument of `destroys(Context, Atom, cc)` has no effect on the
  result.

Neither `asserts` nor the atom form of `destroys` reads the target in the
target's own context (Step.java:73, Step.java:139), and the `context` argument of
`destroys(Context, Atom, cc)` is never used.

## Model

| member | source | states |
|---|---|---|
| `Pop.Step.Preconditions` | src/main/java/aStar_planning/pop/Step.java:29-33 | `getActionPreconditions` returns the wrapped action's precondition list |
| `Pop.Step.Consequences` | src/main/java/aStar_planning/pop/Step.java:39-43 | `getActionConsequences` returns the wrapped action's consequence list |
| `Logic.CodenotationConstraints.Copy` | src/main/java/aStar_planning/pop/Step.java:69 | `copy()` returns a fresh object holding the same bindings |
| `Logic.CodenotationConstraints.Unify` | src/main/java/aStar_planning/pop/Step.java:72-77 | the unifier's verdict is the oracle's verdict on the bindings held before the call; it changes only the binding set it is handed, which it extends in place |
| `Pop.Step.AssertsProposition` | src/main/java/aStar_planning/pop/Step.java:67-78 | true iff the negation flags are equal and the oracle unifies the target's predicate (read in this step's context) with the candidate's predicate (read in the candidate's context), starting from the caller's bindings; the unification runs on a copy, and the caller's set is untouched |
| `Pop.Step.Asserts` | src/main/java/aStar_planning/pop/Step.java:52-65 | the early-exit scan over the preconditions returns exactly `AssertsUnder` on the caller's bindings: some precondition matches, each judged on its own copy of the unchanged caller set |
| `StepProperties.AssertsIff` | src/main/java/aStar_planning/pop/Step.java:52-78 | `asserts(p, cc)` holds iff some precondition has `p`'s negation flag and the oracle unifies `p`'s predicate with it, both read in the step's own context |
| `StepProperties.AssertsNothingWithoutPreconditions` | src/main/java/aStar_planning/pop/Step.java:55-64 | a step with an empty precondition list asserts nothing |
| `StepProperties.AssertsIgnoresTargetContext` | src/main/java/aStar_planning/pop/Step.java:72-76 | replacing the target proposition's context by any other context leaves the answer of `asserts` unchanged |
| `StepProperties.AssertsIgnoresConsequences` | src/main/java/aStar_planning/pop/Step.java:55 | two steps with the same context and preconditions agree on `asserts`, whatever their consequences |
| `StepProperties.AssertsScansPreconditionsNotConsequences` | src/main/java/aStar_planning/pop/Step.java:55 | a step none of whose preconditions has `p`'s negation flag does not assert `p`, whatever its consequences and for every oracle |
| `StepProperties.AssertsOrderIndependent` | src/main/java/aStar_planning/pop/Step.java:59-69 | since every attempt gets a fresh copy, reordering or repeating the preconditions does not change `asserts` |
| `StepProperties.AssertsOnlyBySameName` | src/main/java/aStar_planning/pop/Step.java:71-77 | with an oracle that fails fast on a name mismatch, `asserts` holds only through a precondition that has `p`'s name and polarity |
| `Pop.Step.Clobbers` | src/main/java/aStar_planning/pop/Step.java:90-98 | the two filters of `isThreatening`: a clobbered precondition shares the consequence's name and carries the opposite negation flag, and the bindings-free oracle unifies the two across the two steps' contexts |
| `Pop.Step.IsThreatening` | src/main/java/aStar_planning/pop/Step.java:86-106 | some consequence yields a non-empty filtered list; the answer is false when this step has no consequence or the other step has no precondition (the full characterisation is `IsThreateningIff`) |
| `Pop.Step.DestroyedPreconditions` | src/main/java/aStar_planning/pop/Step.java:88-99 | the filtered list holds exactly the other step's preconditions that have the consequence's name and the opposite flag and that the bindings-free oracle unifies across the two contexts; it is no longer than the list it filters |
| `StepProperties.IsThreateningIff` | src/main/java/aStar_planning/pop/Step.java:86-106 | `isThreatening(other)` holds iff some consequence `c` and some precondition `q` of `other` have the same name and opposite flags, and the oracle unifies `c` in this step's context with `q` in `other`'s context |
| `StepProperties.NoThreatWithoutSharedName` | src/main/java/aStar_planning/pop/Step.java:90-91 | no threat when no consequence shares a predicate name with a precondition of the other step |
| `StepProperties.NoThreatWhenPolaritiesAgree` | src/main/java/aStar_planning/pop/Step.java:92 | no threat when every name-matching pair has equal negation flags |
| `StepProperties.ThreatNameFilterRedundant` | src/main/java/aStar_planning/pop/Step.java:90-98 | with an oracle that fails fast on a name mismatch, the name filter can be dropped without changing `isThreatening` |
| `Pop.Step.DestroysProposition` | src/main/java/aStar_planning/pop/Step.java:133-144 | true iff the consequence is negated, the target is positive, and the oracle unifies the target's predicate (read in this step's context) with the consequence's predicate (read in the consequence's context), starting from the caller's bindings; the unification runs on a copy, and the caller's set is untouched |
| `StepProperties.DestroysPropositionPolarity` | src/main/java/aStar_planning/pop/Step.java:137-141 | the atom form of `destroys` is false whenever the consequence is positive or the target is negated, and it ignores the target's context |
| `Pop.Step.Destroys` | src/main/java/aStar_planning/pop/Step.java:116-131 | the early-exit scan over the consequences returns exactly `DestroysUnder` on the caller's bindings, and the caller's set is untouched |
| `StepProperties.DestroysIff` | src/main/java/aStar_planning/pop/Step.java:116-144 | `destroys(ctx, pre, cc)` holds iff `pre` is positive and some negated consequence unifies with it, both read in the step's context, starting from the caller's bindings |
| `StepProperties.DestroysNothingTrivially` | src/main/java/aStar_planning/pop/Step.java:121-130 | a step with no consequences destroys nothing, and no step destroys a negated precondition |
| `StepProperties.DestroysIgnoresContext` | src/main/java/aStar_planning/pop/Step.java:119 | `destroys(ctx, pre, cc)` gives the same answer for every `ctx` |
| `StepProperties.StepEquality` | src/main/java/aStar_planning/pop/Step.java:19-43 | steps are equal iff their action instances are equal; the precondition and consequence shortcuts return the wrapped action's lists |

## Left out

- The unifier (`Predicate.unify`) is an uninterpreted oracle. Its algorithm, like the internals of `Context`, `ContextualAtom`, `CodenotationConstraints` and `LogicalInstance`, lives in the logic package and is not part of this model. A context is identified by its owning instance only. The consistency flag of a binding set is not modelled.
- The bindings-free form of unification (`unify(ctxA, predB, ctxB)`) is a second oracle. Its relation to the form that takes a binding set is not modelled.
- `Step.toString` is left out: it renders text through the logic package's `build`.
- `getAssertingCodenotations` is left out: it always returns `null` and has no behaviour to verify.
- The cast of the instance's logical entity to `Action` is not modelled: the instance is typed as holding an action, so the cast that could fail cannot arise. Lombok's generated `hashCode` is left out too. Only the equality it accompanies is modelled, as Dafny's structural equality.
- `PartialOrder` is not part of this model: it is a pair of plan elements with generated accessors and equality, and has no ordering or acyclicity logic.
- The backward planning adapter is not part of this model. Each of its methods delegates to the constraint classes or returns a constant, and it uses `double` heuristics.
- The best-first resolver and the forward planning adapter are not part of this model. The forward integration test depends on them and on the blocks-world fixtures, so it is left out as well.
