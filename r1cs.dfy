/**
 * A value-level constraint system, the shared `ConstraintSystemRef` that both circuits build.
 *
 * One variable stands for one allocated gadget (a `UInt32`, a `UInt8` or a `Boolean`); its
 * bit decomposition is not modelled. Constraints are stated by what they mean for the values
 * of the variables, not by their rank-1 encoding.
 */
module R1cs {
  import opened Wrappers

  /** Key generation builds the circuit in setup mode, without values; proving builds it with values. */
  datatype Mode = Setup | Prove

  /** A witness is private to the prover; an input is public and bound into verification. */
  datatype Kind = Witness | Input

  /** An allocated variable; in setup mode it carries no value. */
  datatype Variable = Variable(kind: Kind, value: Option<int>)

  datatype SynthesisError = AssignmentMissing

  /** A value-level expression over variables, each named by its position in allocation order. */
  datatype Term = Var(index: nat) | Const(c: int) | Diff(minuend: Term, subtrahend: Term)

  /** The orderings `enforce_cmp` is used with. */
  datatype Ordering = Less | Greater

  datatype Constraint =
    | Ordered(lhs: Term, rhs: Term, ordering: Ordering, orEqual: bool)
    | Equal(lhs: Term, rhs: Term)

  /** What a circuit appends to a constraint system, and whether it succeeded. */
  datatype Synthesis = Synthesis(variables: seq<Variable>, constraints: seq<Constraint>, result: Result<Unit, SynthesisError>)

  /** Field encoding of a boolean gadget's value. */
  function BoolValue(b: bool): (v: int)
    ensures 0 <= v <= 1
    ensures b <==> v == 1
  {
    if b then 1 else 0
  }

  /**
   * Allocation of one gadget. Only in prove mode is the value demanded, and then an absent
   * value fails the allocation; in setup mode the variable records no value.
   */
  function Allocate(mode: Mode, kind: Kind, value: Option<int>): (r: Result<Variable, SynthesisError>)
    ensures r.Err? <==> mode.Prove? && value.None?
    ensures r.Ok? ==> r.value.kind == kind
    ensures r.Ok? && mode == Prove ==> r.value.value == value
    ensures r.Ok? && mode == Setup ==> r.value.value.None?
  {
    if mode == Setup then Ok(Variable(kind, None))
    else if value.None? then Err(AssignmentMissing)
    else Ok(Variable(kind, value))
  }

  /** Allocation of a vector of byte gadgets whose values are supplied outright: one allocation per byte. */
  function AllocateVec(mode: Mode, kind: Kind, values: seq<int>): (vars: seq<Variable>)
    ensures |vars| == |values|
    ensures forall i :: 0 <= i < |vars| ==> vars[i].kind == kind
    ensures forall i :: 0 <= i < |vars| ==> vars[i].value == if mode == Prove then Some(values[i]) else None
  {
    seq(|values|, i requires 0 <= i < |values| => Allocate(mode, kind, Some(values[i])).value)
  }

  /** The kind of each variable, in allocation order: together with the constraints, the circuit's shape. */
  function Kinds(vars: seq<Variable>): (kinds: seq<Kind>)
    ensures |kinds| == |vars|
    ensures forall i :: 0 <= i < |vars| ==> kinds[i] == vars[i].kind
  {
    seq(|vars|, i requires 0 <= i < |vars| => vars[i].kind)
  }

  /**
   * The values of the input gadgets, in allocation order. This is the gadget-level view of the
   * public inputs, not the vector of field elements that Groth16 verification takes.
   */
  function InputValues(vars: seq<Variable>): (inputs: seq<Option<int>>)
    ensures |inputs| <= |vars|
    ensures (forall i :: 0 <= i < |vars| ==> vars[i].kind == Witness) ==> inputs == []
  {
    if vars == [] then []
    else (if vars[0].kind == Input then [vars[0].value] else []) + InputValues(vars[1..])
  }

  lemma {:induction false} InputValuesAppend(a: seq<Variable>, b: seq<Variable>)
    ensures InputValues(a + b) == InputValues(a) + InputValues(b)
  {
    if a != [] {
      assert (a + b)[1..] == a[1..] + b;
      InputValuesAppend(a[1..], b);
    } else {
      assert a + b == b;
    }
  }

  /** The input values of variables that are all inputs are their values, in order. */
  lemma {:induction false} InputValuesOfInputs(vars: seq<Variable>)
    requires forall i :: 0 <= i < |vars| ==> vars[i].kind == Input
    ensures InputValues(vars) == seq(|vars|, i requires 0 <= i < |vars| => vars[i].value)
  {
    if vars != [] {
      InputValuesOfInputs(vars[1..]);
    }
  }

  function Eval(t: Term, vars: seq<Variable>): (v: Option<int>)
    ensures t.Var? ==> (v.Some? <==> t.index < |vars| && vars[t.index].value.Some?)
    ensures t.Const? ==> v == Some(t.c)
  {
    match t
    case Var(i) => if i < |vars| then vars[i].value else None
    case Const(c) => Some(c)
    case Diff(a, b) =>
      match (Eval(a, vars), Eval(b, vars))
      case (Some(x), Some(y)) => Some(x - y)
      case _ => None
  }

  /** A constraint holds when every variable it mentions has a value and the relation is true of them. */
  function Holds(c: Constraint, vars: seq<Variable>): bool {
    match c
    case Ordered(lhs, rhs, ordering, orEqual) =>
      (match (Eval(lhs, vars), Eval(rhs, vars))
       case (Some(x), Some(y)) =>
         (match ordering
          case Greater => x > y || (orEqual && x == y)
          case Less => x < y || (orEqual && x == y))
       case _ => false)
    case Equal(lhs, rhs) =>
      Eval(lhs, vars).Some? && Eval(lhs, vars) == Eval(rhs, vars)
  }

  predicate Satisfied(vars: seq<Variable>, constraints: seq<Constraint>) {
    forall i :: 0 <= i < |constraints| ==> Holds(constraints[i], vars)
  }

  /** The shared constraint system, to which the gadgets append in place. */
  class ConstraintSystem {
    const mode: Mode
    var variables: seq<Variable>
    var constraints: seq<Constraint>

    constructor (mode: Mode)
      ensures this.mode == mode
      ensures variables == [] && constraints == []
    {
      this.mode := mode;
      variables := [];
      constraints := [];
    }

    /** `new_witness` / `new_input` of one gadget; returns the new variable's index. */
    method NewVariable(kind: Kind, value: Option<int>) returns (r: Result<nat, SynthesisError>)
      modifies this`variables
      ensures Allocate(mode, kind, value).Err? ==> r == Err(AssignmentMissing) && variables == old(variables)
      ensures Allocate(mode, kind, value).Ok? ==>
        r == Ok(|old(variables)|) && variables == old(variables) + [Allocate(mode, kind, value).value]
    {
      var v := Allocate(mode, kind, value);
      if v.Err? {
        return Err(AssignmentMissing);
      }
      r := Ok(|variables|);
      variables := variables + [v.value];
    }

    /** `new_witness_vec` / `new_input_vec` of byte gadgets: one variable per byte, in order. */
    method NewVariableVec(kind: Kind, values: seq<int>) returns (indices: seq<nat>)
      modifies this`variables
      ensures variables == old(variables) + AllocateVec(mode, kind, values)
      ensures |indices| == |values|
      ensures forall i :: 0 <= i < |values| ==> indices[i] == |old(variables)| + i
    {
      indices := [];
      var i := 0;
      while i < |values|
        invariant 0 <= i <= |values|
        invariant variables == old(variables) + AllocateVec(mode, kind, values[..i])
        invariant |indices| == i
        invariant forall k :: 0 <= k < i ==> indices[k] == |old(variables)| + k
      {
        var r := NewVariable(kind, Some(values[i]));
        indices := indices + [r.value];
        i := i + 1;
        assert AllocateVec(mode, kind, values[..i]) == AllocateVec(mode, kind, values[..i - 1]) + [Allocate(mode, kind, Some(values[i - 1])).value];
      }
      assert values[..i] == values;
    }

    /**
     * `sub` of two 32-bit gadgets: the difference, with underflow made unsatisfiable by a
     * constraint that the minuend is at least the subtrahend.
     */
    method Sub(minuend: Term, subtrahend: Term) returns (difference: Term)
      modifies this`constraints
      ensures difference == Diff(minuend, subtrahend)
      ensures constraints == old(constraints) + [Ordered(minuend, subtrahend, Greater, true)]
    {
      constraints := constraints + [Ordered(minuend, subtrahend, Greater, true)];
      difference := Diff(minuend, subtrahend);
    }

    /** `enforce_cmp(other, ordering, should_also_check_equality)`. */
    method EnforceCmp(lhs: Term, rhs: Term, ordering: Ordering, orEqual: bool)
      modifies this`constraints
      ensures constraints == old(constraints) + [Ordered(lhs, rhs, ordering, orEqual)]
    {
      constraints := constraints + [Ordered(lhs, rhs, ordering, orEqual)];
    }

    /** `enforce_equal`. */
    method EnforceEqual(lhs: Term, rhs: Term)
      modifies this`constraints
      ensures constraints == old(constraints) + [Equal(lhs, rhs)]
    {
      constraints := constraints + [Equal(lhs, rhs)];
    }
  }
}
