/**
 * Best-effort aggregation, shared by every calculator: each processed pair has
 * an outcome (a record, or the log entry written when its provider call
 * raised), and the calculator's output is the successful records, in order,
 * with the failed pairs simply absent.
 */
module BestEffort {
  import opened Wrappers
  import opened Pairs
  import opened Depots

  /** The outcome of every processed pair, in processing order. */
  function Outcomes<R, E>(depots: seq<Depot>, pairs: seq<Pair>, attempt: (Depot, Depot) -> Result<R, E>)
    : (outs: seq<Result<R, E>>)
    requires Within(pairs, |depots|)
    ensures |outs| == |pairs|
  {
    seq(|pairs|, k requires 0 <= k < |pairs| => attempt(depots[pairs[k].0], depots[pairs[k].1]))
  }

  /** The records of the successful outcomes, in order. */
  function Successes<R, E>(outs: seq<Result<R, E>>): (r: seq<R>)
    ensures |r| <= |outs|
  {
    if outs == [] then []
    else
      var last := outs[|outs| - 1];
      Successes(outs[..|outs| - 1]) + (if last.Success? then [last.value] else [])
  }

  /** The log entries of the failed outcomes, in order. */
  function Failures<R, E>(outs: seq<Result<R, E>>): (r: seq<E>)
    ensures |r| <= |outs|
  {
    if outs == [] then []
    else
      var last := outs[|outs| - 1];
      Failures(outs[..|outs| - 1]) + (if last.Failure? then [last.error] else [])
  }

  /** The positions of the successful outcomes, in order. */
  function SuccessPositions<R, E>(outs: seq<Result<R, E>>): seq<nat> {
    if outs == [] then []
    else SuccessPositions(outs[..|outs| - 1]) + (if outs[|outs| - 1].Success? then [|outs| - 1] else [])
  }

  /** One more processed pair adds its record or its log entry, never both. */
  lemma Step<R, E>(outs: seq<Result<R, E>>, i: nat)
    requires i < |outs|
    ensures Successes(outs[..i + 1]) == Successes(outs[..i]) + (if outs[i].Success? then [outs[i].value] else [])
    ensures Failures(outs[..i + 1]) == Failures(outs[..i]) + (if outs[i].Failure? then [outs[i].error] else [])
  {
    assert outs[..i + 1][..i] == outs[..i];
  }

  /** Every processed pair is accounted for exactly once: as a record or as a log entry. */
  lemma {:induction false} Partition<R, E>(outs: seq<Result<R, E>>)
    ensures |Successes(outs)| + |Failures(outs)| == |outs|
  {
    if outs != [] {
      Partition(outs[..|outs| - 1]);
    }
  }

  lemma {:induction false} Append<R, E>(a: seq<Result<R, E>>, b: seq<Result<R, E>>)
    ensures Successes(a + b) == Successes(a) + Successes(b)
    ensures Failures(a + b) == Failures(a) + Failures(b)
    decreases |b|
  {
    if b == [] {
      assert a + b == a;
    } else {
      var b' := b[..|b| - 1];
      assert (a + b)[..|a + b| - 1] == a + b';
      Append(a, b');
    }
  }

  /** The output is exactly the subsequence of successful outcomes: the k-th
    * record comes from the k-th successful position, positions increase, and
    * every successful position is used. */
  lemma {:induction false} SuccessPositionsFacts<R, E>(outs: seq<Result<R, E>>)
    ensures |SuccessPositions(outs)| == |Successes(outs)|
    ensures forall m :: 0 <= m < |SuccessPositions(outs)| ==>
              SuccessPositions(outs)[m] < |outs| &&
              outs[SuccessPositions(outs)[m]] == Success(Successes(outs)[m])
    ensures forall a, b :: 0 <= a < b < |SuccessPositions(outs)| ==>
              SuccessPositions(outs)[a] < SuccessPositions(outs)[b]
    ensures forall k :: 0 <= k < |outs| && outs[k].Success? ==> k in SuccessPositions(outs)
  {
    if outs != [] {
      var n := |outs| - 1;
      var prefix := outs[..n];
      SuccessPositionsFacts(prefix);
      var pos, pos' := SuccessPositions(outs), SuccessPositions(prefix);
      var succ, succ' := Successes(outs), Successes(prefix);
      assert pos == pos' + (if outs[n].Success? then [n] else []);
      assert succ == succ' + (if outs[n].Success? then [outs[n].value] else []);
      forall m | 0 <= m < |pos|
        ensures pos[m] < |outs| && outs[pos[m]] == Success(succ[m])
      {
        if m < |pos'| {
          assert pos[m] == pos'[m] && succ[m] == succ'[m];
          assert prefix[pos'[m]] == outs[pos'[m]];
        }
      }
      forall k | 0 <= k < |outs| && outs[k].Success?
        ensures k in pos
      {
        if k < n {
          assert prefix[k] == outs[k];
          assert k in pos';
        } else {
          assert pos[|pos| - 1] == n;
        }
      }
    }
  }

  /** With no failure, there is one record per processed pair, in the same order. */
  lemma {:induction false} AllSucceed<R, E>(outs: seq<Result<R, E>>)
    requires forall k :: 0 <= k < |outs| ==> outs[k].Success?
    ensures |Successes(outs)| == |outs|
    ensures forall k :: 0 <= k < |outs| ==> Successes(outs)[k] == outs[k].value
    ensures Failures(outs) == []
  {
    if outs != [] {
      var n := |outs| - 1;
      AllSucceed(outs[..n]);
      assert forall k :: 0 <= k < n ==> outs[..n][k] == outs[k];
    }
  }

  /** With every pair failing, there is no record and one log entry per pair. */
  lemma {:induction false} AllFail<R, E>(outs: seq<Result<R, E>>)
    requires forall k :: 0 <= k < |outs| ==> outs[k].Failure?
    ensures Successes(outs) == []
    ensures |Failures(outs)| == |outs|
  {
    if outs != [] {
      var n := |outs| - 1;
      assert forall k :: 0 <= k < n ==> outs[..n][k] == outs[k];
      AllFail(outs[..n]);
    }
  }

  /** When exactly one pair fails, every other pair has its record and that pair has the only log entry. */
  lemma OneFailure<R, E>(outs: seq<Result<R, E>>, j: nat)
    requires j < |outs| && outs[j].Failure?
    requires forall k :: 0 <= k < |outs| && k != j ==> outs[k].Success?
    ensures |Successes(outs)| == |outs| - 1
    ensures Failures(outs) == [outs[j].error]
  {
    var before, after := outs[..j], outs[j + 1..];
    assert outs == before + [outs[j]] + after;
    assert forall k :: 0 <= k < |before| ==> before[k] == outs[k];
    assert forall k :: 0 <= k < |after| ==> after[k] == outs[j + 1 + k];
    AllSucceed(before);
    AllSucceed(after);
    Append(before, [outs[j]]);
    Append(before + [outs[j]], after);
    assert Successes([outs[j]]) == [] && Failures([outs[j]]) == [outs[j].error] by {
      assert [outs[j]][..0] == [];
    }
  }

  /** `[f(x) for x in xs]` */
  function Apply<X, Y>(f: X -> Y, xs: seq<X>): (ys: seq<Y>)
    ensures |ys| == |xs|
  {
    seq(|xs|, i requires 0 <= i < |xs| => f(xs[i]))
  }

  /** Two runs over the same pairs whose outcomes succeed together, with records
    * related by f, produce outputs related by f record by record. */
  lemma {:induction false} Correspond<R, S, E, F>(a: seq<Result<R, E>>, b: seq<Result<S, F>>, f: R -> S)
    requires |a| == |b|
    requires forall k :: 0 <= k < |a| ==> (a[k].Success? <==> b[k].Success?)
    requires forall k :: 0 <= k < |a| && a[k].Success? ==> f(a[k].value) == b[k].value
    ensures Apply(f, Successes(a)) == Successes(b)
  {
    if a != [] {
      var n := |a| - 1;
      assert forall k :: 0 <= k < n ==> a[..n][k] == a[k] && b[..n][k] == b[k];
      Correspond(a[..n], b[..n], f);
      var prev := Successes(a[..n]);
      assert Successes(a) == prev + (if a[n].Success? then [a[n].value] else []);
      assert Apply(f, Successes(a)) == Apply(f, prev) + (if a[n].Success? then [f(a[n].value)] else []);
    }
  }
}
