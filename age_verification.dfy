/**
 * The age-threshold circuit: a private birth year, a public current year and a public minimum
 * age, constrained so that the age (current year minus birth year) exceeds the minimum age.
 */
module AgeVerification {
  import opened Wrappers
  import opened Primitives
  import opened R1cs

  datatype AgeVerificationCircuit = AgeVerificationCircuit(
    birthYear: Option<uint32>,
    currentYear: Option<uint32>,
    minimumAge: Option<uint32>)

  predicate FullyAssigned(c: AgeVerificationCircuit) {
    c.birthYear.Some? && c.currentYear.Some? && c.minimumAge.Some?
  }

  /** The relation the circuit enforces on its values: no underflow, and the age strictly above the minimum. */
  predicate OldEnough(birthYear: int, currentYear: int, minimumAge: int) {
    birthYear <= currentYear && currentYear - birthYear > minimumAge
  }

  /**
   * What `generate_constraints` appends to a constraint system in `mode` that already holds
   * `base` variables: the birth year as a witness, then the current year and the minimum age
   * as inputs, then the no-underflow constraint of `sub` and the strict comparison.
   */
  function AgeSynthesis(c: AgeVerificationCircuit, mode: Mode, base: nat): (s: Synthesis)
    ensures s.result.Ok? <==> mode == Setup || FullyAssigned(c)
    ensures s.result.Err? ==> s.constraints == []
    ensures mode == Prove && c.birthYear.None? ==> s.result == Err(AssignmentMissing) && s.variables == []
    ensures mode == Prove && c.birthYear.Some? && c.currentYear.None? ==>
      s.result == Err(AssignmentMissing) && Kinds(s.variables) == [Witness]
    ensures mode == Prove && c.birthYear.Some? && c.currentYear.Some? && c.minimumAge.None? ==>
      s.result == Err(AssignmentMissing) && Kinds(s.variables) == [Witness, Input]
    ensures s.result.Ok? ==> Kinds(s.variables) == [Witness, Input, Input]
    ensures s.result.Ok? && mode == Prove ==>
      InputValues(s.variables) == [Some(c.currentYear.value as int), Some(c.minimumAge.value as int)]
    ensures mode == Setup ==> InputValues(s.variables) == [None, None]
  {
    match Allocate(mode, Witness, c.birthYear)
    case Err(e) => Synthesis([], [], Err(e))
    case Ok(birthYear) =>
      match Allocate(mode, Input, c.currentYear)
      case Err(e) => Synthesis([birthYear], [], Err(e))
      case Ok(currentYear) =>
        match Allocate(mode, Input, c.minimumAge)
        case Err(e) => Synthesis([birthYear, currentYear], [], Err(e))
        case Ok(minimumAge) =>
          var age := Diff(Var(base + 1), Var(base));
          var vars := [birthYear, currentYear, minimumAge];
          assert InputValues(vars[2..]) == [minimumAge.value];
          assert InputValues(vars[1..]) == [currentYear.value, minimumAge.value];
          Synthesis(vars,
                    [Ordered(Var(base + 1), Var(base), Greater, true),
                     Ordered(age, Var(base + 2), Greater, false)],
                    Ok(Unit))
  }

  /** `generate_constraints`, appending to the shared constraint system step by step. */
  method GenerateConstraints(c: AgeVerificationCircuit, cs: ConstraintSystem) returns (r: Result<Unit, SynthesisError>)
    modifies cs
    ensures
      var s := AgeSynthesis(c, cs.mode, |old(cs.variables)|);
      r == s.result && cs.variables == old(cs.variables) + s.variables && cs.constraints == old(cs.constraints) + s.constraints
  {
    var birthYear := cs.NewVariable(Witness, c.birthYear);
    if birthYear.Err? {
      return Err(birthYear.error);
    }
    var currentYear := cs.NewVariable(Input, c.currentYear);
    if currentYear.Err? {
      return Err(currentYear.error);
    }
    var minimumAge := cs.NewVariable(Input, c.minimumAge);
    if minimumAge.Err? {
      return Err(minimumAge.error);
    }
    var age := cs.Sub(Var(currentYear.value), Var(birthYear.value));
    cs.EnforceCmp(age, Var(minimumAge.value), Greater, false);
    r := Ok(Unit);
  }

  /**
   * With every value present, the constraints emitted in prove mode hold exactly when the
   * birth year does not exceed the current year and the age is strictly greater than the
   * minimum age, whatever variables the system held before.
   */
  lemma {:induction false} AgeRelation(c: AgeVerificationCircuit, before: seq<Variable>)
    requires FullyAssigned(c)
    ensures
      var s := AgeSynthesis(c, Prove, |before|);
      (Satisfied(before + s.variables, s.constraints)
       <==> OldEnough(c.birthYear.value, c.currentYear.value, c.minimumAge.value))
  {
    var s := AgeSynthesis(c, Prove, |before|);
    var all := before + s.variables;
    var b := |before|;
    assert all[b] == Variable(Witness, Some(c.birthYear.value as int));
    assert all[b + 1] == Variable(Input, Some(c.currentYear.value as int));
    assert all[b + 2] == Variable(Input, Some(c.minimumAge.value as int));
    assert Holds(s.constraints[0], all) <==> c.birthYear.value <= c.currentYear.value;
    assert Holds(s.constraints[1], all) <==> c.currentYear.value - c.birthYear.value > c.minimumAge.value;
  }

  /**
   * The birth year matters only through the age: since the minimum age is unsigned, an age
   * above it is never negative, so satisfaction is `age > minimum_age` alone.
   */
  lemma OnlyAgeMatters(c: AgeVerificationCircuit, before: seq<Variable>)
    requires FullyAssigned(c)
    ensures
      var s := AgeSynthesis(c, Prove, |before|);
      var age := c.currentYear.value - c.birthYear.value;
      (Satisfied(before + s.variables, s.constraints) <==> age > c.minimumAge.value)
  {
    AgeRelation(c, before);
  }

  /** Key generation from the empty template and proving with any values produce the same shape. */
  lemma SetupAndProveAgree(c: AgeVerificationCircuit, base: nat)
    requires FullyAssigned(c)
    ensures
      var template := AgeSynthesis(AgeVerificationCircuit(None, None, None), Setup, base);
      var instance := AgeSynthesis(c, Prove, base);
      template.result.Ok? && instance.result.Ok?
      && Kinds(template.variables) == Kinds(instance.variables)
      && template.constraints == instance.constraints
  {
  }

  /** The comparison is strict: an age equal to the minimum age is rejected. */
  lemma AgeEqualToMinimumRejected(c: AgeVerificationCircuit, before: seq<Variable>)
    requires FullyAssigned(c)
    requires c.currentYear.value - c.birthYear.value == c.minimumAge.value
    ensures
      var s := AgeSynthesis(c, Prove, |before|);
      !Satisfied(before + s.variables, s.constraints)
  {
    AgeRelation(c, before);
  }

  /** A birth year after the current year is unsatisfiable rather than wrapping around. */
  lemma FutureBirthYearRejected(c: AgeVerificationCircuit, before: seq<Variable>)
    requires FullyAssigned(c)
    requires c.birthYear.value > c.currentYear.value
    ensures
      var s := AgeSynthesis(c, Prove, |before|);
      !Satisfied(before + s.variables, s.constraints)
  {
    AgeRelation(c, before);
  }

  /**
   * The circuit's test: born 1990, in 2024, minimum age 18. The circuit builds in both modes
   * with the same shape, its constraints hold, and its input gadgets hold 2024 and 18.
   */
  lemma TestAgeVerification()
    ensures
      var c := AgeVerificationCircuit(Some(1990), Some(2024), Some(18));
      var setup := AgeSynthesis(c, Setup, 0);
      var prove := AgeSynthesis(c, Prove, 0);
      setup.result.Ok? && prove.result.Ok?
      && Kinds(setup.variables) == Kinds(prove.variables) && setup.constraints == prove.constraints
      && Satisfied(prove.variables, prove.constraints)
      && InputValues(prove.variables) == [Some(2024), Some(18)]
  {
    AgeRelation(AgeVerificationCircuit(Some(1990), Some(2024), Some(18)), []);
    assert [] + AgeSynthesis(AgeVerificationCircuit(Some(1990), Some(2024), Some(18)), Prove, 0).variables
        == AgeSynthesis(AgeVerificationCircuit(Some(1990), Some(2024), Some(18)), Prove, 0).variables;
  }

  /**
   * The under-age scenario of the system's design: born 2010, in 2024, minimum age 18. The
   * circuit builds, but its constraints do not hold, so no valid witness exists for it.
   */
  lemma UnderageScenarioRejected()
    ensures
      var c := AgeVerificationCircuit(Some(2010), Some(2024), Some(18));
      var prove := AgeSynthesis(c, Prove, 0);
      prove.result.Ok? && !Satisfied(prove.variables, prove.constraints)
  {
    AgeRelation(AgeVerificationCircuit(Some(2010), Some(2024), Some(18)), []);
    assert [] + AgeSynthesis(AgeVerificationCircuit(Some(2010), Some(2024), Some(18)), Prove, 0).variables
        == AgeSynthesis(AgeVerificationCircuit(Some(2010), Some(2024), Some(18)), Prove, 0).variables;
  }
}
