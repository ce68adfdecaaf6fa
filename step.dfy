/** Steps of a partial-order plan and the reasoning about what a step asserts,
    which steps it threatens, and which preconditions it destroys. */
module Pop {
  import opened Logic

  /** A step: one grounded action instance placed in a partial-order plan.
      Steps are values, equal exactly when their action instances are. */
  datatype Step = Step(actionInstance: LogicalInstance) {

    /** The step's preconditions: those of its action. */
    function Preconditions(): (r: seq<Atom>)
      ensures r == actionInstance.logicalEntity.preconditions
    {
      actionInstance.logicalEntity.preconditions
    }

    /** The step's consequences: those of its action. */
    function Consequences(): (r: seq<Atom>)
      ensures r == actionInstance.logicalEntity.consequences
    {
      actionInstance.logicalEntity.consequences
    }

    // ----- asserts -----

    /** What `assertsProposition` answers: the two atoms have the same negation
        flag, and the oracle unifies `other`'s predicate, read in THIS STEP's
        context, with `prop`'s predicate, read in `prop`'s context, starting from
        `bindings`. `other`'s own context plays no part. */
    predicate AssertsPropositionUnder(prop: ContextualAtom, other: ContextualAtom,
                                      bindings: set<Codenotation>, u: Unifier)
    {
      prop.atom.negation == other.atom.negation &&
      u.extend(actionInstance.context, other.atom.pred,
               prop.context, prop.atom.pred, bindings).success
    }

    /** `assertsProposition`: the unification is attempted on a copy of `cc`.
        The method has no modifies clause, so `cc` is left as it was. */
    method AssertsProposition(prop: ContextualAtom, other: ContextualAtom,
                              cc: CodenotationConstraints, u: Unifier)
      returns (r: bool)
      ensures r == AssertsPropositionUnder(prop, other, cc.bindings, u)
    {
      var temp := cc.Copy();
      r := prop.atom.negation == other.atom.negation;
      if r {
        r := temp.Unify(u, actionInstance.context, other.atom.pred,
                        prop.context, prop.atom.pred);
      }
    }

    /** What `asserts` answers: some PRECONDITION of the step, read in the step's
        context, asserts `p`, each one judged against the same `bindings`. */
    predicate AssertsUnder(p: ContextualAtom, bindings: set<Codenotation>, u: Unifier)
    {
      exists a :: a in Preconditions() &&
        AssertsPropositionUnder(ContextualAtom(actionInstance.context, a), p, bindings, u)
    }

    /** `asserts`: scans the preconditions in order and stops at the first one
        that asserts `p`. Every attempt works on its own copy of `cc`, and `cc`
        itself is never modified. */
    method Asserts(p: ContextualAtom, cc: CodenotationConstraints, u: Unifier)
      returns (r: bool)
      ensures r == AssertsUnder(p, cc.bindings, u)
    {
      var preconditions := Preconditions();
      var i := 0;
      while i < |preconditions|
        invariant 0 <= i <= |preconditions|
        invariant forall j :: 0 <= j < i ==>
          !AssertsPropositionUnder(ContextualAtom(actionInstance.context, preconditions[j]), p, cc.bindings, u)
      {
        var instance := ContextualAtom(actionInstance.context, preconditions[i]);
        var found := AssertsProposition(instance, p, cc, u);
        if found {
          return true;
        }
        i := i + 1;
      }
      return false;
    }

    // ----- isThreatening -----

    /** The filter of `isThreatening`: precondition `q` of the other step shares
        its predicate name with `consequence`, has the opposite negation flag, and
        the bindings-free oracle unifies `consequence` in this step's context with
        `q` in the other step's context. */
    predicate Clobbers(consequence: Atom, q: Atom, otherContext: Context, u: Unifier)
      ensures Clobbers(consequence, q, otherContext, u) ==>
        SameName(consequence.pred, q.pred) && q.negation == !consequence.negation
    {
      SameName(q.pred, consequence.pred) &&
      q.negation != consequence.negation &&
      u.probe(actionInstance.context, consequence.pred, otherContext, q.pred)
    }

    /** The filtered list of `isThreatening`: the preconditions, in order, that
        `consequence` clobbers. */
    function DestroyedPreconditions(consequence: Atom, preconditions: seq<Atom>,
                                    otherContext: Context, u: Unifier): (r: seq<Atom>)
      ensures forall q :: q in r <==> q in preconditions && Clobbers(consequence, q, otherContext, u)
      ensures |r| <= |preconditions|
    {
      if preconditions == [] then []
      else
        var rest := DestroyedPreconditions(consequence, preconditions[1..], otherContext, u);
        if Clobbers(consequence, preconditions[0], otherContext, u)
        then [preconditions[0]] + rest
        else rest
    }

    /** `isThreatening(other)`: for some consequence of this step the filtered
        list of the other step's preconditions is not empty. */
    predicate IsThreatening(other: Step, u: Unifier)
      ensures IsThreatening(other, u) ==> Consequences() != [] && other.Preconditions() != []
    {
      exists c :: c in Consequences() &&
        |DestroyedPreconditions(c, other.Preconditions(), other.actionInstance.context, u)| > 0
    }

    // ----- destroys -----

    /** What the atom form of `destroys` answers: `consequence` is negated,
        `other` is not, and the oracle unifies `other`'s predicate, read in THIS
        STEP's context, with `consequence`'s predicate, read in `consequence`'s
        context, starting from `bindings`. */
    predicate DestroysPropositionUnder(consequence: ContextualAtom, other: ContextualAtom,
                                      bindings: set<Codenotation>, u: Unifier)
    {
      consequence.atom.negation && !other.atom.negation &&
      u.extend(actionInstance.context, other.atom.pred,
               consequence.context, consequence.atom.pred, bindings).success
    }

    /** `destroys(ContextualAtom, ContextualAtom, cc)`: the unification is
        attempted on a copy of `cc`, which is left as it was. */
    method DestroysProposition(consequence: ContextualAtom, other: ContextualAtom,
                               cc: CodenotationConstraints, u: Unifier)
      returns (r: bool)
      ensures r == DestroysPropositionUnder(consequence, other, cc.bindings, u)
    {
      var temp := cc.Copy();
      r := consequence.atom.negation && !other.atom.negation;
      if r {
        r := temp.Unify(u, actionInstance.context, other.atom.pred,
                        consequence.context, consequence.atom.pred);
      }
    }

    /** What `destroys(Context, Atom, cc)` answers: some consequence of the step,
        read in the step's context, destroys `precondition` read in `context`. */
    predicate DestroysUnder(context: Context, precondition: Atom,
                            bindings: set<Codenotation>, u: Unifier)
    {
      exists c :: c in Consequences() &&
        DestroysPropositionUnder(ContextualAtom(actionInstance.context, c),
                                 ContextualAtom(context, precondition), bindings, u)
    }

    /** `destroys(Context, Atom, cc)`: scans the consequences in order and stops
        at the first one that destroys the precondition; `cc` is never modified. */
    method Destroys(context: Context, precondition: Atom,
                    cc: CodenotationConstraints, u: Unifier)
      returns (r: bool)
      ensures r == DestroysUnder(context, precondition, cc.bindings, u)
    {
      var proposition := ContextualAtom(context, precondition);
      var consequences := Consequences();
      var i := 0;
      while i < |consequences|
        invariant 0 <= i <= |consequences|
        invariant forall j :: 0 <= j < i ==>
          !DestroysPropositionUnder(ContextualAtom(actionInstance.context, consequences[j]), proposition, cc.bindings, u)
      {
        var instance := ContextualAtom(actionInstance.context, consequences[i]);
        var found := DestroysProposition(instance, proposition, cc, u);
        if found {
          return true;
        }
        i := i + 1;
      }
      return false;
    }
  }
}
