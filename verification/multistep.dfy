/**
  The multi-step DQN learner: the n-step target bootstrapped from the plain
  maximum of the target network, and the per-step scheduler that learns on
  every eligible step, decays epsilon and refreshes the target network.
*/
module Multistep {
  import opened Returns
  import opened Bootstrap

  /**
    The target of one sampled window: the n-step fold started from the maximum
    of the target network's next-state row (no double-Q split).
  */
  function MultistepTarget(rewards: seq<real>, dones: seq<real>, gamma: real, targetNext: seq<real>): real
    requires |dones| == |rewards|
    requires |targetNext| > 0
  {
    NStepTarget(rewards, dones, gamma, Max(targetNext))
  }

  /**
    A done flag anywhere in the window makes the multi-step target ignore the
    target network's row altogether.
  */
  lemma MultistepDoneIgnoresBootstrap(rewards: seq<real>, dones: seq<real>, gamma: real,
                                      targetNext: seq<real>, otherNext: seq<real>, k: nat)
    requires |dones| == |rewards| && |targetNext| > 0 && |otherNext| > 0
    requires k < |rewards| && dones[k] == 1.0
    ensures MultistepTarget(rewards, dones, gamma, targetNext) == MultistepTarget(rewards, dones, gamma, otherNext)
  {
    DoneMasksLaterSteps(rewards, dones, Max(targetNext), rewards, dones, Max(otherNext), gamma, k);
  }

  /**
    The counters of a multi-step DQN learner. time_t is the last global step
    seen; the stamp accumulates step deltas since the last target refresh.
  */
  class MultistepDQNAgent {
    const batchSize: int
    const startTrainStep: int
    const targetUpdatePeriod: int

    var timeT: int
    var targetUpdateStamp: int
    var numLearn: nat

    /** time_t at the last target refresh (0 before the first). */
    ghost var lastSyncTime: int
    /** Number of target refreshes and of epsilon decays so far. */
    ghost var numSync: nat
    ghost var numDecay: nat

    ghost predicate Valid()
      reads this
    {
      && targetUpdateStamp == timeT - lastSyncTime
      && (numLearn == 0 ==> numSync == 0 && numDecay == 0)
    }

    constructor (batchSize: int, startTrainStep: int, targetUpdatePeriod: int)
      ensures Valid()
      ensures this.batchSize == batchSize && this.startTrainStep == startTrainStep
      ensures this.targetUpdatePeriod == targetUpdatePeriod
      ensures timeT == 0 && targetUpdateStamp == 0 && numLearn == 0
    {
      this.batchSize := batchSize;
      this.startTrainStep := startTrainStep;
      this.targetUpdatePeriod := targetUpdatePeriod;
      timeT, targetUpdateStamp, numLearn := 0, 0, 0;
      lastSyncTime, numSync, numDecay := 0, 0, 0;
    }

    /** The bookkeeping of one learn: num_learn goes up by one. */
    method Learn()
      requires Valid()
      modifies this
      ensures Valid()
      ensures numLearn == old(numLearn) + 1
      ensures timeT == old(timeT) && targetUpdateStamp == old(targetUpdateStamp)
      ensures lastSyncTime == old(lastSyncTime) && numSync == old(numSync) && numDecay == old(numDecay)
    {
      numLearn := numLearn + 1;
    }

    /**
      One call of process(transitions, step). memorySize is the memory's size
      after the transitions were stored. learned says whether learn ran,
      decayed whether epsilon_decay(delta_t) was called, synced whether the
      target network was refreshed.
    */
    method Process(step: int, memorySize: int) returns (learned: bool, decayed: bool, synced: bool)
      requires Valid()
      modifies this
      ensures Valid()
      ensures timeT == step
      ensures learned <==> memorySize > batchSize && step >= startTrainStep
      ensures numLearn == old(numLearn) + (if learned then 1 else 0)
      ensures decayed <==> numLearn > 0
      ensures numDecay == old(numDecay) + (if decayed then 1 else 0)
      ensures synced <==> (numLearn > 0 && old(targetUpdateStamp) + (step - old(timeT)) > targetUpdatePeriod)
      ensures targetUpdateStamp == if synced then 0 else old(targetUpdateStamp) + (step - old(timeT))
      ensures numSync == old(numSync) + (if synced then 1 else 0)
      ensures synced ==> step - old(lastSyncTime) > targetUpdatePeriod
    {
      var deltaT := step - timeT;
      timeT := step;
      targetUpdateStamp := targetUpdateStamp + deltaT;

      learned := false;
      if memorySize > batchSize && timeT >= startTrainStep {
        Learn();
        learned := true;
      }

      decayed, synced := false, false;
      if numLearn > 0 {
        decayed := true;
        numDecay := numDecay + 1;
        if targetUpdateStamp > targetUpdatePeriod {
          synced := true;
          targetUpdateStamp := 0;
          lastSyncTime := step;
          numSync := numSync + 1;
        }
      }
    }
  }
}
