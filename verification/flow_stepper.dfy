/** flow/stepper.go: an arithmetic progression over 64-bit integers. */
module FlowStepper {
  import opened FlowSpec

  const MIN := -0x8000_0000_0000_0000
  const MAX := 0x7fff_ffff_ffff_ffff

  newtype int64 = x: int | MIN <= x <= MAX

  /** Two's complement addition and subtraction. */
  function Plus(a: int64, b: int64): (r: int64)
    ensures MIN <= a as int + b as int <= MAX ==> r as int == a as int + b as int
  {
    ((a as int + b as int - MIN) % 0x1_0000_0000_0000_0000 + MIN) as int64
  }

  function Minus(a: int64, b: int64): (r: int64)
    ensures MIN <= a as int - b as int <= MAX ==> r as int == a as int - b as int
    ensures a as int - b as int < MIN ==> r as int == a as int - b as int + 0x1_0000_0000_0000_0000
  {
    ((a as int - b as int - MIN) % 0x1_0000_0000_0000_0000 + MIN) as int64
  }

  class Stepper {
    const end: int64
    const step: int64
    var next: int64
    var more: bool

    constructor (start: int64, end: int64, step: int64)
      requires step > 0
      ensures this.end == end && this.step == step && next == start && more == (start < end)
    {
      this.end, this.step := end, step;
      next, more := start, start < end;
    }

    /** `rest` is still to come. */
    ghost predicate Holds(rest: seq<FlowSpec.Value>)
      reads this
    {
      && step > 0
      && (more ==> next < end && rest == StepValues(next as int, end as int, step as int))
      && (!more ==> rest == [])
    }

    /** The end does not lie so low that stepping back from it leaves the range. */
    predicate InRange() {
      end as int - step as int >= MIN
    }

    method HasNext() returns (b: bool)
      ensures b == more
    {
      b := more;
    }

    method Next(ghost rest: seq<FlowSpec.Value>) returns (v: int64)
      modifies this
      ensures v == old(next)
      ensures if v < Minus(end, step) then more == old(more) && next == Plus(v, step) else !more && next == v
      ensures old(more && Holds(rest)) && InRange() ==>
        rest != [] && rest[0] == Scalar(v as int) && Holds(rest[1..])
    {
      v := next;
      if next < Minus(end, step) {
        next := Plus(next, step);
      } else {
        assert InRange() && step > 0 ==> StepValues(v as int + step as int, end as int, step as int) == [];
        more := false;
      }
    }

    /** The loop of a loop gateway over the stepper. */
    method Drain(ghost rest: seq<FlowSpec.Value>) returns (vs: seq<FlowSpec.Value>)
      requires Holds(rest) && InRange()
      modifies this
      ensures vs == rest && !more
    {
      vs := [];
      ghost var left := rest;
      var b := HasNext();
      while b
        invariant Holds(left) && b == more && vs + left == rest
        decreases |left|
      {
        var v := Next(left);
        vs := vs + [Scalar(v as int)];
        left := left[1..];
        b := HasNext();
      }
    }
  }

  /** Draining a new stepper yields start, start + step, ... below end. */
  method Progression(start: int64, end: int64, step: int64) returns (vs: seq<Value>)
    requires step > 0 && (start >= end || end as int - step as int >= MIN)
    ensures vs == StepValues(start as int, end as int, step as int)
  {
    var s := new Stepper(start, end, step);
    if start >= end {
      return [];
    }
    vs := s.Drain(StepValues(start as int, end as int, step as int));
  }

  /** The i-th value is start + i * step, and the values are exactly those below the end. */
  lemma {:induction false} StepValuesAre(start: int, end: int, step: int, i: nat)
    requires step > 0
    ensures i < |StepValues(start, end, step)| <==> start + i * step < end
    ensures i < |StepValues(start, end, step)| ==> StepValues(start, end, step)[i] == Scalar(start + i * step)
    decreases i
  {
    if i > 0 {
      assert start + i * step == (start + step) + (i - 1) * step;
      if start < end {
        StepValuesAre(start + step, end, step, i - 1);
      } else {
        assert i * step >= 0;
      }
    }
  }

  /** An end so low that stepping back from it wraps around: the first value is not the last one,
      and the next one is not below the end. */
  method WrapsPastEnd(start: int64, end: int64, step: int64) returns (s: Stepper, v: int64)
    requires step > 0 && start < end && end as int - step as int < MIN
    ensures v == start && s.more && s.next >= end
  {
    s := new Stepper(start, end, step);
    v := s.Next([]);
  }
}
