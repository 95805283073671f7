/**
 * The decision rule of the classifier: a cat/dog probability pair becomes
 * a label, abstaining unless one of the two classes is confident.
 */
module Decision {

  /** The three outcomes the component shows: a cat, a dog, or neither. */
  datatype Label = Cat | Dog | Unknown

  /** The fixed confidence threshold; it must be strictly exceeded. */
  const Threshold: real := 0.9

  /** Either class is confident: its probability is strictly above the threshold. */
  predicate Confident(pCat: real, pDog: real) {
    pCat > Threshold || pDog > Threshold
  }

  /**
   * The rule of the component: when either probability exceeds the
   * threshold, the label is the class with the larger probability, a tie
   * going to Dog; otherwise the label is Unknown.
   */
  function Decide(pCat: real, pDog: real): (l: Label)
    ensures l == Unknown <==> !Confident(pCat, pDog)
    ensures l == Cat ==> pCat > pDog && pCat > Threshold
    ensures l == Dog ==> pDog >= pCat && pDog > Threshold
  {
    if Confident(pCat, pDog) then
      (if pCat > pDog then Cat else Dog)
    else
      Unknown
  }

  /** A probability distribution over the two classes. */
  predicate IsDistribution(pCat: real, pDog: real) {
    0.0 <= pCat && 0.0 <= pDog && pCat + pDog == 1.0
  }

  /**
   * For a genuine distribution the larger-probability tie-break never picks
   * the class below the threshold: each label is exactly the statement
   * that its class (or, for Unknown, neither class) is confident.
   */
  lemma DistributionLabels(pCat: real, pDog: real)
    requires IsDistribution(pCat, pDog)
    ensures Decide(pCat, pDog) == Cat <==> pCat > Threshold
    ensures Decide(pCat, pDog) == Dog <==> pDog > Threshold
    ensures Decide(pCat, pDog) == Unknown <==> pCat <= Threshold && pDog <= Threshold
  {
    if pCat > Threshold {
      assert pDog < 0.1;
    } else if pDog > Threshold {
      assert pCat < 0.1;
    }
  }

  /** Equal probabilities are never confident in a distribution, so ties abstain. */
  lemma TieAbstains(p: real)
    requires IsDistribution(p, p)
    ensures Decide(p, p) == Unknown
  {
    assert p == 0.5;
  }

  /** The boundary cases: the threshold is strict. */
  lemma BoundaryCases()
    ensures Decide(0.9, 0.1) == Unknown
    ensures Decide(0.1, 0.9) == Unknown
    ensures Decide(0.95, 0.05) == Cat
    ensures Decide(0.05, 0.95) == Dog
    ensures Decide(0.6, 0.4) == Unknown
  {
  }
}
