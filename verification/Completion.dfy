/** Accounting for completion callbacks: which have run, with which result. */
module Completion {
  import opened Prelude

  /** One run of a completion callback. */
  datatype Call = Call(cb: nat, code: Code)

  /** Runs of the given callbacks, all with one result. */
  function Calls(cbs: seq<nat>, code: Code): (r: seq<Call>)
    ensures |r| == |cbs|
    ensures forall i :: 0 <= i < |cbs| ==> r[i] == Call(cbs[i], code)
  {
    seq(|cbs|, i requires 0 <= i < |cbs| => Call(cbs[i], code))
  }

  /** The callbacks that have run. */
  function Ran(calls: seq<Call>): multiset<nat>
  {
    multiset(seq(|calls|, i requires 0 <= i < |calls| => calls[i].cb))
  }

  /** Every number below `n`, once. */
  function Numbers(n: nat): (r: multiset<nat>)
    ensures forall k: nat :: r[k] == if k < n then 1 else 0
  {
    if n == 0 then multiset{} else Numbers(n - 1) + multiset{n - 1}
  }

  lemma RanConcat(a: seq<Call>, b: seq<Call>)
    ensures Ran(a + b) == Ran(a) + Ran(b)
  {
    var f := (c: seq<Call>) => seq(|c|, i requires 0 <= i < |c| => c[i].cb);
    assert f(a + b) == f(a) + f(b);
  }

  lemma RanCalls(cbs: seq<nat>, code: Code)
    ensures Ran(Calls(cbs, code)) == multiset(cbs)
  {
    assert seq(|cbs|, i requires 0 <= i < |cbs| => Calls(cbs, code)[i].cb) == cbs;
  }

  /** Adding the same to a part and to the whole. */
  lemma AddRight(a: multiset<nat>, b: multiset<nat>, whole: multiset<nat>, x: multiset<nat>)
    requires a + b == whole
    ensures a + (b + x) == whole + x
  {
  }

  lemma AddLeft(a: multiset<nat>, b: multiset<nat>, whole: multiset<nat>, x: multiset<nat>)
    requires a + b == whole
    ensures (a + x) + b == whole + x
  {
  }

  /** Moving callbacks from those attached to those that have run. */
  lemma Moved(a: multiset<nat>, b: multiset<nat>, x: multiset<nat>)
    ensures (a + x) + b == a + (b + x)
  {
  }

  lemma CallsConcat(a: seq<nat>, b: seq<nat>, code: Code)
    ensures Calls(a + b, code) == Calls(a, code) + Calls(b, code)
  {
  }

  /** Registering one more callback, or none. */
  lemma MoreNumbers(n: nat, cb: Option<nat>)
    requires cb.None? || cb == Some(n)
    ensures Numbers(n + |Opt(cb)|) == Numbers(n) + multiset(Opt(cb))
  {
    if cb.Some? {
      assert Numbers(n + 1) == Numbers(n) + multiset{n};
    }
  }
}
