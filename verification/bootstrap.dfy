/**
  Bootstrap values and per-sample errors used by the value-based learners.
  One row of a network's output (one value per action) is a seq<real>.
*/
module Bootstrap {

  /** The largest entry of a row (the values of max along the action axis). */
  function Max(xs: seq<real>): (m: real)
    requires |xs| > 0
    ensures m in xs
    ensures forall i :: 0 <= i < |xs| ==> xs[i] <= m
    decreases |xs|
  {
    if |xs| == 1 then xs[0]
    else
      var m' := Max(xs[..|xs| - 1]);
      if xs[|xs| - 1] > m' then xs[|xs| - 1] else m'
  }

  /**
    The index of the first maximal entry of a row, which is the index that
    argmax along the action axis reports.
  */
  function Argmax(xs: seq<real>): (k: nat)
    requires |xs| > 0
    ensures k < |xs|
    ensures forall i :: 0 <= i < |xs| ==> xs[i] <= xs[k]
    ensures forall i :: 0 <= i < k ==> xs[i] < xs[k]
    decreases |xs|
  {
    if |xs| == 1 then 0
    else
      var k' := Argmax(xs[..|xs| - 1]);
      if xs[|xs| - 1] > xs[k'] then |xs| - 1 else k'
  }

  /**
    The product of a row with the one-hot vector of action a, summed along the
    action axis: sum over i of row[i] * (1 if i == a else 0), built up from the
    left end.
  */
  function OneHotDot(row: seq<real>, a: nat): real
    decreases |row|
  {
    if |row| == 0 then 0.0
    else OneHotDot(row[..|row| - 1], a) + row[|row| - 1] * (if |row| - 1 == a then 1.0 else 0.0)
  }

  /** The one-hot product picks entry a of the row, and gives 0 when a is outside the row. */
  lemma {:induction false} OneHotPicks(row: seq<real>, a: nat)
    ensures OneHotDot(row, a) == if a < |row| then row[a] else 0.0
    decreases |row|
  {
    if |row| > 0 {
      OneHotPicks(row[..|row| - 1], a);
    }
  }

  /**
    Double-Q bootstrap: the action is chosen greedily on the online network's
    next-state row and evaluated on the target network's next-state row by
    the one-hot product.
  */
  function DoubleQBootstrap(onlineNext: seq<real>, targetNext: seq<real>): (v: real)
    requires |onlineNext| == |targetNext| > 0
    ensures v == targetNext[Argmax(onlineNext)]
    ensures exists a :: 0 <= a < |onlineNext| && v == targetNext[a]
              && forall i :: 0 <= i < |onlineNext| ==> onlineNext[i] <= onlineNext[a]
  {
    OneHotPicks(targetNext, Argmax(onlineNext));
    OneHotDot(targetNext, Argmax(onlineNext))
  }

  /**
    The double-Q bootstrap never exceeds the plain max bootstrap of the same
    target row, and equals it when the two networks agree.
  */
  lemma DoubleQAtMostMax(onlineNext: seq<real>, targetNext: seq<real>)
    requires |onlineNext| == |targetNext| > 0
    ensures DoubleQBootstrap(onlineNext, targetNext) <= Max(targetNext)
    ensures onlineNext == targetNext ==> DoubleQBootstrap(onlineNext, targetNext) == Max(targetNext)
  {
    var a := Argmax(onlineNext);
    if onlineNext == targetNext {
      var m := Max(targetNext);
      var j :| 0 <= j < |targetNext| && targetNext[j] == m;
      assert targetNext[j] <= targetNext[a];
    }
  }

  /**
    The value of the action actually taken: the one-hot product of the
    network's row with the taken action, which is that action's entry.
  */
  function TakenValue(row: seq<real>, action: nat): (q: real)
    requires action < |row|
    ensures q == row[action]
  {
    OneHotPicks(row, action);
    OneHotDot(row, action)
  }

  function Abs(v: real): (a: real)
    ensures 0.0 <= a && (a == v || a == -v)
  {
    if v < 0.0 then -v else v
  }

  /** Absolute TD error between a target and the current estimate. */
  function TdError(target: real, q: real): (e: real)
    ensures 0.0 <= e
    ensures e == 0.0 <==> target == q
    ensures e == target - q || e == q - target
  {
    Abs(target - q)
  }
}
