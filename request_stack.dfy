/** The request stack: a first-in first-out sequence of deferred requests,
    stored as one array under a reserved key of a reserved cache. Push appends
    at the tail; shift takes the head, or nothing when the stack is empty. */
module RequestStack {
  import opened Requests

  /** The stack after pushing `r`. */
  function Pushed(s: seq<Record>, r: Record): (t: seq<Record>)
    ensures |t| == |s| + 1 && t[|s|] == r && t[..|s|] == s
  {
    s + [r]
  }

  /** What a shift gives back, and the stack it leaves. */
  datatype Shifted = Shifted(head: Option<Record>, rest: seq<Record>)

  function Shift(s: seq<Record>): (sh: Shifted)
    ensures s == [] ==> sh.head.None? && sh.rest == []
    ensures s != [] ==> sh.head == Some(s[0]) && [s[0]] + sh.rest == s
  {
    if s == [] then Shifted(None, []) else Shifted(Some(s[0]), s[1..])
  }

  /** A sequence of stack operations, for stating the FIFO discipline. */
  datatype StackOp = PushOp(record: Record) | ShiftOp

  /** The records pushed by `ops`, in order. */
  function PushedBy(ops: seq<StackOp>): seq<Record>
  {
    if ops == [] then []
    else (if ops[0].PushOp? then [ops[0].record] else []) + PushedBy(ops[1..])
  }

  /** The stack left and the records shifted out, in order, when `ops` run
      on `s`. */
  datatype Run = Run(stack: seq<Record>, taken: seq<Record>)

  function RunOps(s: seq<Record>, ops: seq<StackOp>): Run
    decreases |ops|
  {
    if ops == [] then Run(s, [])
    else match ops[0]
      case PushOp(r) => RunOps(Pushed(s, r), ops[1..])
      case ShiftOp =>
        var sh := Shift(s);
        var rest := RunOps(sh.rest, ops[1..]);
        if sh.head.Some? then Run(rest.stack, [sh.head.value] + rest.taken) else rest
  }

  /** FIFO: every shift returns the earliest record not yet shifted, so the
      records taken followed by the records left are exactly the records
      that were there followed by the records pushed, in order: nothing is
      reordered, lost or duplicated. */
  lemma {:induction false} RunIsFifo(s: seq<Record>, ops: seq<StackOp>)
    ensures RunOps(s, ops).taken + RunOps(s, ops).stack == s + PushedBy(ops)
    decreases |ops|
  {
    if ops != [] {
      var tail := PushedBy(ops[1..]);
      match ops[0]
      case PushOp(r) =>
        RunIsFifo(s + [r], ops[1..]);
        assert s + PushedBy(ops) == (s + [r]) + tail;
      case ShiftOp =>
        RunIsFifo(Shift(s).rest, ops[1..]);
        if s != [] {
          var rest := RunOps(s[1..], ops[1..]);
          ConsAppend(s[0], rest.taken, rest.stack, s[1..], tail);
        }
    }
  }

  /** Putting a record in front of a concatenation. */
  lemma ConsAppend(x: Record, a: seq<Record>, b: seq<Record>, c: seq<Record>, d: seq<Record>)
    requires a + b == c + d
    ensures ([x] + a) + b == ([x] + c) + d
  {
    assert ([x] + a) + b == [x] + (a + b);
    assert ([x] + c) + d == [x] + (c + d);
  }

  /** Shifting an empty stack any number of times gives nothing and leaves it
      empty. */
  lemma {:induction false} ShiftEmptyIsStable(n: nat)
    ensures var r := RunOps([], seq(n, _ => ShiftOp)); r.stack == [] && r.taken == []
  {
    if n > 0 {
      ShiftEmptyIsStable(n - 1);
      assert seq(n, _ => ShiftOp)[1..] == seq(n - 1, _ => ShiftOp);
    }
  }
}
