/** The parts of the planner's logical substrate (the `logic` package) that the
    partial-order step reasoning consumes. Only their shape is modelled here:
    unification itself is an oracle, a `Unifier`, supplied by the caller, and
    the only thing this module promises about it is that applying it to a
    binding set changes that binding set and nothing else. */
module Logic {

  /** A term of a predicate: a variable, scoped by a context, or a constant. */
  datatype Term = Variable(name: string) | Constant(name: string)

  /** A predicate application: a name and its argument terms. */
  datatype Predicate = Predicate(name: string, args: seq<Term>)

  /** `Predicate.sameName`: the two predicates carry the same name. */
  predicate SameName(a: Predicate, b: Predicate)
  {
    a.name == b.name
  }

  /** An atom: a predicate together with its negation flag. */
  datatype Atom = Atom(pred: Predicate, negation: bool)

  /** The variable scope of one logical instance, identified by the instance
      that owns it, so that equally named variables of two instances never
      alias. What the scope binds is not modelled. */
  datatype Context = Context(owner: nat)

  /** An atom read in a given context. */
  datatype ContextualAtom = ContextualAtom(context: Context, atom: Atom)

  /** An action schema: its name, its precondition atoms and its consequence atoms. */
  datatype Action = Action(name: string, preconditions: seq<Atom>, consequences: seq<Atom>)

  /** A grounded action instance: the action together with its own context. */
  datatype LogicalInstance = LogicalInstance(logicalEntity: Action, context: Context)

  /** One codenotation: a variable of a context bound to a term. */
  datatype Codenotation = Codenotation(scope: Context, variable: string, value: Term)

  /** What a unification attempt reports: whether it succeeded, and the binding
      set it leaves behind. */
  datatype Unification = Unification(success: bool, bindings: set<Codenotation>)

  /** The unification oracle, in its two forms.
      `extend(ctxA, a, ctxB, b, s)` is `a.unify(ctxA, b, ctxB, constraints)` on a
      constraint set holding `s`; `probe(ctxA, a, ctxB, b)` is the form without a
      constraint set, `a.unify(ctxA, b, ctxB)`. Both are left uninterpreted: every
      property proved about the steps holds for every oracle. */
  datatype Unifier = Unifier(
    extend: (Context, Predicate, Context, Predicate, set<Codenotation>) -> Unification,
    probe: (Context, Predicate, Context, Predicate) -> bool)

  /** The unifier fails fast on predicates of different names, in both forms.
      This is the fail-fast rule expected of `Predicate.unify`; it is a hypothesis
      of the lemmas that use it, never built into the oracle. */
  ghost predicate FailsOnNameMismatch(u: Unifier)
  {
    (forall ca, a, cb, b, s :: !SameName(a, b) ==> !u.extend(ca, a, cb, b, s).success) &&
    (forall ca, a, cb, b :: !SameName(a, b) ==> !u.probe(ca, a, cb, b))
  }

  /** A mutable set of codenotation constraints (variable bindings). */
  class CodenotationConstraints {
    var bindings: set<Codenotation>

    /** An empty constraint set. */
    constructor ()
      ensures bindings == {}
    {
      bindings := {};
    }

    /** A constraint set holding the given bindings. */
    constructor Of(initial: set<Codenotation>)
      ensures bindings == initial
    {
      bindings := initial;
    }

    /** `copy()`: a new, independent constraint set with the same bindings. */
    method Copy() returns (c: CodenotationConstraints)
      ensures fresh(c) && c.bindings == bindings
    {
      c := new CodenotationConstraints.Of(bindings);
    }

    /** `a.unify(ctxA, b, ctxB, this)`: the oracle's verdict, with this set
        extended in place by whatever bindings the attempt leaves behind. It may
        change this object only. */
    method Unify(u: Unifier, contextA: Context, a: Predicate, contextB: Context, b: Predicate)
      returns (ok: bool)
      modifies this
      ensures ok == u.extend(contextA, a, contextB, b, old(bindings)).success
      ensures bindings == u.extend(contextA, a, contextB, b, old(bindings)).bindings
    {
      var outcome := u.extend(contextA, a, contextB, b, bindings);
      ok, bindings := outcome.success, outcome.bindings;
    }
  }
}
