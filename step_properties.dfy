/** What the step reasoning promises, proved for every unification oracle. */
module StepProperties {
  import opened Logic
  import opened Pop

  // ----- value equality and the shortcuts -----

  /** Steps are equal exactly when their action instances are, and equal steps
      expose the same preconditions and consequences, those of the wrapped action. */
  lemma StepEquality(s: Step, t: Step)
    ensures s == t <==> s.actionInstance == t.actionInstance
    ensures s.Preconditions() == s.actionInstance.logicalEntity.preconditions
    ensures s.Consequences() == s.actionInstance.logicalEntity.consequences
    ensures s == t ==> s.Preconditions() == t.Preconditions() && s.Consequences() == t.Consequences()
  {
  }

  // ----- asserts -----

  /** `asserts` in full: some precondition has the negation flag of `p`, and the
      oracle unifies `p`'s predicate with that precondition's predicate, BOTH read
      in the step's own context, starting from the caller's bindings. */
  lemma AssertsIff(s: Step, p: ContextualAtom, b: set<Codenotation>, u: Unifier)
    ensures s.AssertsUnder(p, b, u) <==>
      exists a :: a in s.Preconditions() && a.negation == p.atom.negation &&
        u.extend(s.actionInstance.context, p.atom.pred, s.actionInstance.context, a.pred, b).success
  {
  }

  /** A step without preconditions asserts nothing. */
  lemma AssertsNothingWithoutPreconditions(s: Step, p: ContextualAtom, b: set<Codenotation>, u: Unifier)
    requires s.Preconditions() == []
    ensures !s.AssertsUnder(p, b, u)
  {
  }

  /** The context carried by the target proposition is never consulted. */
  lemma AssertsIgnoresTargetContext(s: Step, p: ContextualAtom, context: Context,
                                    b: set<Codenotation>, u: Unifier)
    ensures s.AssertsUnder(p, b, u) == s.AssertsUnder(ContextualAtom(context, p.atom), b, u)
  {
  }

  /** What a step asserts is decided by its preconditions alone: two steps with
      the same context and the same preconditions agree whatever their
      consequences are. */
  lemma AssertsIgnoresConsequences(s: Step, t: Step, p: ContextualAtom, b: set<Codenotation>, u: Unifier)
    requires s.actionInstance.context == t.actionInstance.context
    requires s.Preconditions() == t.Preconditions()
    ensures s.AssertsUnder(p, b, u) == t.AssertsUnder(p, b, u)
  {
  }

  /** The literal reading: a step none of whose preconditions carries `p`'s
      negation flag does not assert `p`, whatever its consequences (even `p`
      itself among them) and whatever the oracle says. */
  lemma AssertsScansPreconditionsNotConsequences(s: Step, p: ContextualAtom,
                                                 b: set<Codenotation>, u: Unifier)
    requires forall a :: a in s.Preconditions() ==> a.negation != p.atom.negation
    ensures !s.AssertsUnder(p, b, u)
  {
  }

  /** Every candidate is judged against the caller's bindings, never against
      bindings left by an earlier attempt, so neither the order of the
      preconditions nor repetitions among them change the answer. */
  lemma AssertsOrderIndependent(s: Step, t: Step, p: ContextualAtom, b: set<Codenotation>, u: Unifier)
    requires s.actionInstance.context == t.actionInstance.context
    requires forall a :: a in s.Preconditions() <==> a in t.Preconditions()
    ensures s.AssertsUnder(p, b, u) == t.AssertsUnder(p, b, u)
  {
  }

  /** Under an oracle that fails fast on a name mismatch, a step asserts `p`
      only through a precondition of `p`'s name and polarity. */
  lemma AssertsOnlyBySameName(s: Step, p: ContextualAtom, b: set<Codenotation>, u: Unifier)
    requires FailsOnNameMismatch(u)
    requires s.AssertsUnder(p, b, u)
    ensures exists a ::
      a in s.Preconditions() && a.negation == p.atom.negation && SameName(p.atom.pred, a.pred)
  {
  }

  // ----- isThreatening -----

  /** `isThreatening` in full: some consequence of `s` and some precondition of
      `other` share a name, have opposite negation flags, and unify, each read in
      its own step's context. */
  lemma {:induction false} IsThreateningIff(s: Step, other: Step, u: Unifier)
    ensures s.IsThreatening(other, u) <==>
      exists c, q :: c in s.Consequences() && q in other.Preconditions() &&
        s.Clobbers(c, q, other.actionInstance.context, u)
  {
    var oc := other.actionInstance.context;
    if s.IsThreatening(other, u) {
      var c :| c in s.Consequences() &&
        |s.DestroyedPreconditions(c, other.Preconditions(), oc, u)| > 0;
      var q := s.DestroyedPreconditions(c, other.Preconditions(), oc, u)[0];
      assert q in s.DestroyedPreconditions(c, other.Preconditions(), oc, u);
      assert q in other.Preconditions() && s.Clobbers(c, q, oc, u);
    }
    if exists c, q :: c in s.Consequences() && q in other.Preconditions() && s.Clobbers(c, q, oc, u) {
      var c, q :| c in s.Consequences() && q in other.Preconditions() && s.Clobbers(c, q, oc, u);
      assert q in s.DestroyedPreconditions(c, other.Preconditions(), oc, u);
    }
  }

  /** No threat when no consequence of `s` shares a name with a precondition of `other`. */
  lemma NoThreatWithoutSharedName(s: Step, other: Step, u: Unifier)
    requires forall c, q :: c in s.Consequences() && q in other.Preconditions() ==>
      !SameName(q.pred, c.pred)
    ensures !s.IsThreatening(other, u)
  {
    IsThreateningIff(s, other, u);
  }

  /** No threat when every name-matching pair has equal negation flags. */
  lemma NoThreatWhenPolaritiesAgree(s: Step, other: Step, u: Unifier)
    requires forall c, q ::
      c in s.Consequences() && q in other.Preconditions() && SameName(q.pred, c.pred) ==>
        q.negation == c.negation
    ensures !s.IsThreatening(other, u)
  {
    IsThreateningIff(s, other, u);
  }

  /** Under an oracle that fails fast on a name mismatch, the name filter of
      `isThreatening` decides nothing the oracle does not already decide. */
  lemma ThreatNameFilterRedundant(s: Step, other: Step, u: Unifier)
    requires FailsOnNameMismatch(u)
    ensures s.IsThreatening(other, u) <==>
      exists c, q :: c in s.Consequences() && q in other.Preconditions() &&
        q.negation != c.negation &&
        u.probe(s.actionInstance.context, c.pred, other.actionInstance.context, q.pred)
  {
    IsThreateningIff(s, other, u);
  }

  // ----- destroys -----

  /** The atom form of `destroys` holds only for a negated consequence and a
      positive target; the target's context is never consulted. */
  lemma DestroysPropositionPolarity(s: Step, c: ContextualAtom, o: ContextualAtom, context: Context,
                                    b: set<Codenotation>, u: Unifier)
    ensures s.DestroysPropositionUnder(c, o, b, u) ==> c.atom.negation && !o.atom.negation
    ensures !c.atom.negation || o.atom.negation ==> !s.DestroysPropositionUnder(c, o, b, u)
    ensures s.DestroysPropositionUnder(c, o, b, u) == s.DestroysPropositionUnder(c, ContextualAtom(context, o.atom), b, u)
  {
  }

  /** `destroys(Context, Atom, cc)` in full: the precondition is positive and
      some negated consequence unifies with it, both read in the step's context. */
  lemma DestroysIff(s: Step, context: Context, pre: Atom, b: set<Codenotation>, u: Unifier)
    ensures s.DestroysUnder(context, pre, b, u) <==>
      !pre.negation &&
      exists c :: c in s.Consequences() && c.negation &&
        u.extend(s.actionInstance.context, pre.pred, s.actionInstance.context, c.pred, b).success
  {
  }

  /** A step without consequences destroys nothing, and no step destroys a
      negated precondition. */
  lemma DestroysNothingTrivially(s: Step, context: Context, pre: Atom, b: set<Codenotation>, u: Unifier)
    requires s.Consequences() == [] || pre.negation
    ensures !s.DestroysUnder(context, pre, b, u)
  {
  }

  /** The answer is the same for every choice of the context argument. */
  lemma DestroysIgnoresContext(s: Step, c1: Context, c2: Context, pre: Atom,
                               b: set<Codenotation>, u: Unifier)
    ensures s.DestroysUnder(c1, pre, b, u) == s.DestroysUnder(c2, pre, b, u)
  {
  }
}
