/**
  The Ape-X learner: prioritized n-step double-Q learning. This module holds
  its per-sample target, the priority write-back, the scalar schedules (beta
  annealing and the per-worker epsilon exponent) and the per-step scheduler
  that decides when to learn and when to refresh the target network.
*/
module ApeX {
  import opened Wrappers
  import opened Returns
  import opened Bootstrap

  // ---------------------------------------------------------------------------
  // n-step double-Q target

  /**
    The target of one sampled window: the n-step fold started from the
    double-Q bootstrap of the window's last next state.
  */
  function ApeXTarget(rewards: seq<real>, dones: seq<real>, gamma: real,
                      onlineNext: seq<real>, targetNext: seq<real>): real
    requires |dones| == |rewards|
    requires |onlineNext| == |targetNext| > 0
  {
    NStepTarget(rewards, dones, gamma, DoubleQBootstrap(onlineNext, targetNext))
  }

  /**
    For discount factors >= 0 and done flags <= 1, the double-Q target is never
    above the target built from the plain maximum of the target network's row.
  */
  lemma ApeXTargetAtMostMaxTarget(rewards: seq<real>, dones: seq<real>, gamma: real,
                                  onlineNext: seq<real>, targetNext: seq<real>)
    requires |dones| == |rewards|
    requires |onlineNext| == |targetNext| > 0
    requires 0.0 <= gamma
    requires forall i :: 0 <= i < |dones| ==> dones[i] <= 1.0
    ensures ApeXTarget(rewards, dones, gamma, onlineNext, targetNext)
            <= NStepTarget(rewards, dones, gamma, Max(targetNext))
  {
    DoubleQAtMostMax(onlineNext, targetNext);
    NStepMonotoneInBoot(rewards, dones, gamma, DoubleQBootstrap(onlineNext, targetNext), Max(targetNext));
  }

  // ---------------------------------------------------------------------------
  // Priority write-back

  /** One call update_priority(priority, index) into the replay memory. */
  datatype PriorityUpdate = PriorityUpdate(index: int, priority: real)

  /**
    The loop over zip(indices, p_j): one update per sampled index, in sample
    order, carrying that sample's new priority. The replay memory is not part
    of the model, so the calls are returned in the order they are made.
  */
  method UpdatePriorities(indices: seq<int>, priorities: seq<real>) returns (calls: seq<PriorityUpdate>)
    ensures |calls| == if |indices| <= |priorities| then |indices| else |priorities|
    ensures forall j :: 0 <= j < |calls| ==> calls[j] == PriorityUpdate(indices[j], priorities[j])
  {
    calls := [];
    var j := 0;
    while j < |indices| && j < |priorities|
      invariant j <= |indices| && j <= |priorities|
      invariant |calls| == j
      invariant forall i :: 0 <= i < j ==> calls[i] == PriorityUpdate(indices[i], priorities[i])
    {
      calls := calls + [PriorityUpdate(indices[j], priorities[j])];
      j := j + 1;
    }
  }

  // ---------------------------------------------------------------------------
  // beta annealing

  /** beta := min(1, beta + beta_add), done once per learn. */
  function AnnealBeta(beta: real, betaAdd: real): (r: real)
    ensures r <= 1.0
    ensures r == 1.0 || r == beta + betaAdd
    ensures r <= beta + betaAdd
    ensures 0.0 <= betaAdd && beta <= 1.0 ==> beta <= r
  {
    if beta + betaAdd < 1.0 then beta + betaAdd else 1.0
  }

  /** beta after k learns, starting from beta0. */
  function BetaAfter(beta0: real, betaAdd: real, k: nat): real
  {
    if k == 0 then beta0 else AnnealBeta(BetaAfter(beta0, betaAdd, k - 1), betaAdd)
  }

  /** Closed form: after k learns beta is min(1, beta0 + k * beta_add). */
  lemma {:induction false} BetaAfterClosedForm(beta0: real, betaAdd: real, k: nat)
    requires beta0 <= 1.0 && 0.0 <= betaAdd
    ensures BetaAfter(beta0, betaAdd, k)
            == if beta0 + k as real * betaAdd < 1.0 then beta0 + k as real * betaAdd else 1.0
  {
    if k > 0 {
      BetaAfterClosedForm(beta0, betaAdd, k - 1);
    }
  }

  /** beta never decreases from one learn to a later one and never exceeds 1. */
  lemma {:induction false} BetaAfterMonotone(beta0: real, betaAdd: real, k: nat, k': nat)
    requires beta0 <= 1.0 && 0.0 <= betaAdd
    requires k <= k'
    ensures BetaAfter(beta0, betaAdd, k) <= BetaAfter(beta0, betaAdd, k') <= 1.0
    decreases k' - k
  {
    if k < k' {
      BetaAfterMonotone(beta0, betaAdd, k, k' - 1);
    } else if k > 0 {
      assert BetaAfter(beta0, betaAdd, k') == AnnealBeta(BetaAfter(beta0, betaAdd, k' - 1), betaAdd);
    }
  }

  /**
    beta is annealed per learn, not per environment step: it reaches 1 after
    (1 - beta0) / beta_add learns, whatever the number of steps in between.
  */
  lemma BetaReachesOne(beta0: real, betaAdd: real, k: nat)
    requires beta0 <= 1.0 && 0.0 <= betaAdd
    requires 1.0 - beta0 <= k as real * betaAdd
    ensures BetaAfter(beta0, betaAdd, k) == 1.0
  {
    BetaAfterClosedForm(beta0, betaAdd, k);
  }

  // ---------------------------------------------------------------------------
  // Per-worker epsilon exponent

  /** For 0 <= id <= d and 0 <= a, (id / d) * a lies in [0, a]. */
  lemma ScaledFractionBounds(id: int, d: int, a: real)
    requires d != 0
    ensures id == 0 ==> (id as real / d as real) * a == 0.0
    ensures 0 <= id <= d && 0.0 <= a ==> 0.0 <= (id as real / d as real) * a <= a
  {
    if 0 <= id <= d && 0.0 <= a {
      var f := id as real / d as real;
      assert 0.0 <= f <= 1.0;
      assert f * a <= 1.0 * a;
    }
  }

  /**
    The exponent 1 + (id / (num_worker - 1)) * epsilon_alpha applied to the
    base epsilon of worker id; None when num_worker is 1 (division by zero).
  */
  function EpsilonExponent(id: int, numWorker: int, epsilonAlpha: real): (r: Option<real>)
    ensures r.None? <==> numWorker == 1
    ensures numWorker != 1 && id == 0 ==> r == Some(1.0)
    ensures (numWorker != 1 && 0 <= id <= numWorker - 1 && 0.0 <= epsilonAlpha)
            ==> 1.0 <= r.value <= 1.0 + epsilonAlpha
  {
    if numWorker == 1 then None
    else
      var fraction := id as real / (numWorker - 1) as real;
      ScaledFractionBounds(id, numWorker - 1, epsilonAlpha);
      Some(1.0 + fraction * epsilonAlpha)
  }

  /** For num_worker >= 2 the exponent of worker id is 1 + (id / (num_worker - 1)) * epsilon_alpha. */
  lemma ExponentValue(id: int, numWorker: int, epsilonAlpha: real)
    requires 2 <= numWorker
    ensures EpsilonExponent(id, numWorker, epsilonAlpha)
            == Some(1.0 + (id as real / (numWorker - 1) as real) * epsilonAlpha)
  {
  }

  /**
    Workers with a higher id get a larger (or equal) exponent, and a strictly
    larger one when epsilon_alpha > 0, so their epsilon is spread out.
  */
  lemma ExponentMonotone(id1: int, id2: int, numWorker: int, epsilonAlpha: real)
    requires 2 <= numWorker && id1 <= id2 && 0.0 <= epsilonAlpha
    ensures EpsilonExponent(id1, numWorker, epsilonAlpha).value
            <= EpsilonExponent(id2, numWorker, epsilonAlpha).value
    ensures id1 < id2 && 0.0 < epsilonAlpha ==>
              EpsilonExponent(id1, numWorker, epsilonAlpha).value
              < EpsilonExponent(id2, numWorker, epsilonAlpha).value
  {
    var d := (numWorker - 1) as real;
    ExponentValue(id1, numWorker, epsilonAlpha);
    ExponentValue(id2, numWorker, epsilonAlpha);
    FractionsOrdered(id1, id2, d);
    ScaledOrdered(id1 as real / d, id2 as real / d, epsilonAlpha);
  }

  /** Dividing by a positive d keeps the order of two ids, strictly when they differ. */
  lemma FractionsOrdered(id1: int, id2: int, d: real)
    requires 0.0 < d && id1 <= id2
    ensures id1 as real / d <= id2 as real / d
    ensures id1 < id2 ==> id1 as real / d < id2 as real / d
  {
    assert id2 as real / d - id1 as real / d == (id2 - id1) as real / d;
  }

  /** 1 + f * a is monotone in f for a >= 0, strictly for a > 0. */
  lemma ScaledOrdered(f1: real, f2: real, a: real)
    requires f1 <= f2 && 0.0 <= a
    ensures 1.0 + f1 * a <= 1.0 + f2 * a
    ensures f1 < f2 && 0.0 < a ==> 1.0 + f1 * a < 1.0 + f2 * a
  {
    assert (1.0 + f2 * a) - (1.0 + f1 * a) == (f2 - f1) * a;
  }

  // ---------------------------------------------------------------------------
  // Per-step scheduler

  /**
    The counters of an Ape-X learner. time_t is the last global step seen;
    the two stamps accumulate step deltas since the last learn and the last
    target refresh.
  */
  class ApeXAgent {
    const learnPeriod: int
    const batchSize: int
    const startTrainStep: int
    const targetUpdatePeriod: int
    const betaAdd: real
    ghost const beta0: real

    var timeT: int
    var targetUpdateStamp: int
    var learnPeriodStamp: int
    var numLearn: nat
    var beta: real

    /** time_t at the last learn and at the last target refresh (0 before the first). */
    ghost var lastLearnTime: int
    ghost var lastSyncTime: int
    /** Number of target refreshes so far. */
    ghost var numSync: nat

    ghost predicate Valid()
      reads this
    {
      && learnPeriodStamp == timeT - lastLearnTime
      && targetUpdateStamp == timeT - lastSyncTime
      && beta == BetaAfter(beta0, betaAdd, numLearn)
      && (numLearn == 0 ==> numSync == 0)
    }

    constructor (beta: real, learnPeriod: int, exploreStep: int, batchSize: int,
                 startTrainStep: int, targetUpdatePeriod: int)
      requires exploreStep != 0
      ensures Valid()
      ensures this.beta == beta && beta0 == beta && betaAdd == 1.0 / exploreStep as real
      ensures this.learnPeriod == learnPeriod && this.batchSize == batchSize
      ensures this.startTrainStep == startTrainStep && this.targetUpdatePeriod == targetUpdatePeriod
      ensures timeT == 0 && targetUpdateStamp == 0 && learnPeriodStamp == 0 && numLearn == 0
    {
      this.learnPeriod := learnPeriod;
      this.batchSize := batchSize;
      this.startTrainStep := startTrainStep;
      this.targetUpdatePeriod := targetUpdatePeriod;
      this.betaAdd := 1.0 / exploreStep as real;
      this.beta0 := beta;
      this.beta := beta;
      timeT, targetUpdateStamp, learnPeriodStamp, numLearn := 0, 0, 0, 0;
      lastLearnTime, lastSyncTime, numSync := 0, 0, 0;
    }

    /**
      The bookkeeping of one learn: beta is annealed and num_learn goes up by
      one. Sampling, the loss and the gradient step are not part of the model.
    */
    method Learn()
      requires Valid()
      modifies this
      ensures Valid()
      ensures numLearn == old(numLearn) + 1
      ensures beta == AnnealBeta(old(beta), betaAdd)
      ensures timeT == old(timeT) && targetUpdateStamp == old(targetUpdateStamp)
      ensures learnPeriodStamp == old(learnPeriodStamp)
      ensures lastLearnTime == old(lastLearnTime) && lastSyncTime == old(lastSyncTime)
      ensures numSync == old(numSync)
    {
      beta := AnnealBeta(beta, betaAdd);
      numLearn := numLearn + 1;
    }

    /**
      One call of process(transitions, step). bufferCounter is the memory's
      counter after the transitions were stored. learned says whether learn
      ran; synced whether the target network was refreshed.
    */
    method Process(step: int, bufferCounter: int) returns (learned: bool, synced: bool)
      requires Valid()
      modifies this
      ensures Valid()
      ensures timeT == step
      ensures learned <==> (old(learnPeriodStamp) + (step - old(timeT)) > learnPeriod
                            && bufferCounter > batchSize && step >= startTrainStep)
      ensures numLearn == old(numLearn) + (if learned then 1 else 0)
      ensures beta == if learned then AnnealBeta(old(beta), betaAdd) else old(beta)
      ensures learnPeriodStamp == if learned then 0 else old(learnPeriodStamp) + (step - old(timeT))
      ensures synced <==> (numLearn > 0 && old(targetUpdateStamp) + (step - old(timeT)) > targetUpdatePeriod)
      ensures targetUpdateStamp == if synced then 0 else old(targetUpdateStamp) + (step - old(timeT))
      ensures numSync == old(numSync) + (if synced then 1 else 0)
      ensures learned ==> step - old(lastLearnTime) > learnPeriod
      ensures synced ==> step - old(lastSyncTime) > targetUpdatePeriod
    {
      var deltaT := step - timeT;
      timeT := step;
      targetUpdateStamp := targetUpdateStamp + deltaT;
      learnPeriodStamp := learnPeriodStamp + deltaT;

      learned := false;
      if learnPeriodStamp > learnPeriod && bufferCounter > batchSize && timeT >= startTrainStep {
        Learn();
        learned := true;
        learnPeriodStamp := 0;
        lastLearnTime := step;
      }

      synced := false;
      if numLearn > 0 && targetUpdateStamp > targetUpdatePeriod {
        synced := true;
        targetUpdateStamp := 0;
        lastSyncTime := step;
        numSync := numSync + 1;
      }
    }
  }
}
