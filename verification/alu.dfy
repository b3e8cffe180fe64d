/** The arithmetic/logic unit: `reg[a] op= reg[b]` on the register file. */
module Alu {
  import opened Results
  import opened Faults
  import PyList

  /** The operations the ALU supports on integers. Python's `/` yields a float
      and is not part of this model. */
  datatype AluOp = Add | Sub | Mul

  /** One ALU operation on two register values: ADD and SUB undo each other,
      and MUL is `x` added to itself `y` times (negated for a negative `y`). */
  function Apply(op: AluOp, x: int, y: int): (r: int)
    ensures op == Add ==> r - y == x
    ensures op == Sub ==> r + y == x
    ensures op == Mul ==> r == if y >= 0 then Sum(x, y) else -Sum(x, -y)
  {
    match op
    case Add => x + y
    case Sub => x - y
    case Mul => SumIsProduct(x, if y >= 0 then y else -y); x * y
  }

  /** `n` copies of `x` added together. */
  function Sum(x: int, n: nat): int {
    if n == 0 then 0 else Sum(x, n - 1) + x
  }

  /** Repeated addition is multiplication. */
  lemma {:induction false} SumIsProduct(x: int, n: nat)
    ensures Sum(x, n) == x * n
  {
    if n > 0 {
      SumIsProduct(x, n - 1);
    }
  }

  /** `alu(op, reg_a, reg_b)`: the destination register `a` receives
      `reg[a] op reg[b]`; every other register keeps its value. Values are not
      reduced to eight bits. */
  function Compute(op: AluOp, reg: seq<int>, a: int, b: int): (r: Result<seq<int>, Fault>)
    ensures r.Ok? <==> PyList.InRange(|reg|, a) && PyList.InRange(|reg|, b)
    ensures r.Err? ==> r.error == IndexError(Registers, if PyList.InRange(|reg|, a) then b else a)
    ensures r.Ok? ==>
      var da := PyList.Slot(|reg|, a);
      var sb := PyList.Slot(|reg|, b);
      && |r.value| == |reg|
      && r.value[da] == Apply(op, reg[da], reg[sb])
      && forall i :: 0 <= i < |reg| && i != da ==> r.value[i] == reg[i]
  {
    var x :- PyList.Get(reg, a).ToResult(IndexError(Registers, a));
    var y :- PyList.Get(reg, b).ToResult(IndexError(Registers, b));
    PyList.Set(reg, a, Apply(op, x, y)).ToResult(IndexError(Registers, a))
  }

  /** SUB undoes ADD on the same register pair, as long as the pair names two
      different registers. */
  lemma SubUndoesAdd(reg: seq<int>, a: int, b: int)
    requires PyList.InRange(|reg|, a) && PyList.InRange(|reg|, b)
    requires PyList.Slot(|reg|, a) != PyList.Slot(|reg|, b)
    ensures Compute(Add, reg, a, b).Ok?
    ensures Compute(Sub, Compute(Add, reg, a, b).value, a, b) == Ok(reg)
  {
    var added := Compute(Add, reg, a, b).value;
    var back := Compute(Sub, added, a, b).value;
    assert back == reg;
  }
}
