/**
  The n-step bootstrapped target shared by the Ape-X and multi-step DQN
  learners: starting from a bootstrap value, the target is folded right to left
  with t := r_i + (1 - d_i) * gamma * t, so that a done flag at step i wipes out
  everything that lies after it.
*/
module Returns {

  /** x raised to a natural power. */
  function Power(x: real, n: nat): real
  {
    if n == 0 then 1.0 else x * Power(x, n - 1)
  }

  /**
    The value the learner's loop over reversed(range(n_step)) leaves in
    target_q: element i of the window contributes r_i, and the rest of the
    window (or the bootstrap, after the last element) is discounted by gamma
    and masked by 1 - d_i.
  */
  function NStepTarget(rewards: seq<real>, dones: seq<real>, gamma: real, boot: real): real
    requires |dones| == |rewards|
    decreases |rewards|
  {
    if |rewards| == 0 then boot
    else rewards[0] + (1.0 - dones[0]) * gamma * NStepTarget(rewards[1..], dones[1..], gamma, boot)
  }

  /**
    The loop itself, for one row of the batch: i runs from n - 1 down to 0 and
    t is overwritten at every step.
  */
  method ComputeNStepTarget(rewards: seq<real>, dones: seq<real>, gamma: real, boot: real)
    returns (t: real)
    requires |dones| == |rewards|
    ensures t == NStepTarget(rewards, dones, gamma, boot)
  {
    t := boot;
    var i := |rewards|;
    while i > 0
      invariant 0 <= i <= |rewards|
      invariant t == NStepTarget(rewards[i..], dones[i..], gamma, boot)
    {
      i := i - 1;
      assert rewards[i..][1..] == rewards[i + 1..];
      assert dones[i..][1..] == dones[i + 1..];
      t := rewards[i] + (1.0 - dones[i]) * gamma * t;
    }
    assert rewards[0..] == rewards && dones[0..] == dones;
  }

  /**
    Independent reference for the discounted reward sum: the sum over
    positions i < |rewards| of gamma^i * r_i, built up from the left end.
  */
  function DiscountedSum(rewards: seq<real>, gamma: real): real
    decreases |rewards|
  {
    if |rewards| == 0 then 0.0
    else DiscountedSum(rewards[..|rewards| - 1], gamma) + Discounted(rewards, gamma, |rewards| - 1)
  }

  /** The reward at position i, discounted by gamma^i. */
  function Discounted(rewards: seq<real>, gamma: real, i: nat): real
    requires i < |rewards|
  {
    Power(gamma, i) * rewards[i]
  }

  /** Peeling the first reward off a discounted sum. */
  lemma {:induction false} DiscountedSumCons(rewards: seq<real>, gamma: real)
    requires |rewards| > 0
    ensures DiscountedSum(rewards, gamma) == rewards[0] + gamma * DiscountedSum(rewards[1..], gamma)
    decreases |rewards|
  {
    var n := |rewards|;
    if n == 1 {
      assert rewards[..0] == [];
      assert rewards[1..] == [];
    } else {
      var init := rewards[..n - 1];
      DiscountedSumCons(init, gamma);
      assert init[1..] == rewards[1..][..n - 2];
      assert rewards[1..][n - 2] == rewards[n - 1];
      var tail := DiscountedSum(init[1..], gamma);
      var p := Power(gamma, n - 2);
      assert Power(gamma, n - 1) == gamma * p;
      assert DiscountedSum(rewards[1..], gamma) == tail + p * rewards[n - 1];
      calc {
        rewards[0] + gamma * DiscountedSum(rewards[1..], gamma);
        rewards[0] + gamma * (tail + p * rewards[n - 1]);
        (rewards[0] + gamma * tail) + (gamma * p) * rewards[n - 1];
        DiscountedSum(init, gamma) + Power(gamma, n - 1) * rewards[n - 1];
      }
    }
  }

  /**
    Appending a terminal step (done flag 1) with reward r to a window turns r
    into the window's bootstrap value, whatever bootstrap value follows it.
  */
  lemma {:induction false} AppendTerminalStep(rewards: seq<real>, dones: seq<real>, r: real, gamma: real, boot: real)
    requires |dones| == |rewards|
    ensures NStepTarget(rewards + [r], dones + [1.0], gamma, boot) == NStepTarget(rewards, dones, gamma, r)
    decreases |rewards|
  {
    if |rewards| == 0 {
      assert rewards + [r] == [r] && dones + [1.0] == [1.0];
      assert [r][1..] == [] && [1.0][1..] == [];
    } else {
      assert (rewards + [r])[1..] == rewards[1..] + [r];
      assert (dones + [1.0])[1..] == dones[1..] + [1.0];
      AppendTerminalStep(rewards[1..], dones[1..], r, gamma, boot);
    }
  }

  /**
    Without any termination in the window the bootstrap value counts as one
    more reward: the target is the discounted sum of the rewards followed by
    the bootstrap value, that is, the discounted reward sum plus gamma^n times
    the bootstrap value.
  */
  lemma NoDoneClosedForm(rewards: seq<real>, dones: seq<real>, gamma: real, boot: real)
    requires |dones| == |rewards|
    requires forall i :: 0 <= i < |dones| ==> dones[i] == 0.0
    ensures NStepTarget(rewards, dones, gamma, boot) == DiscountedSum(rewards + [boot], gamma)
  {
    var n := |rewards|;
    var extended, extendedDones := rewards + [boot], dones + [1.0];
    AppendTerminalStep(rewards, dones, boot, gamma, boot);
    TerminatedTarget(extended, extendedDones, gamma, boot, n);
    assert extended[..n + 1] == extended;
  }

  /**
    A done flag at position k makes the target independent of every later
    reward, every later done flag and the bootstrap value: two windows that
    agree up to and including k have the same target.
  */
  lemma {:induction false} DoneMasksLaterSteps(
    rewards1: seq<real>, dones1: seq<real>, boot1: real,
    rewards2: seq<real>, dones2: seq<real>, boot2: real,
    gamma: real, k: nat)
    requires |dones1| == |rewards1| && |dones2| == |rewards2|
    requires k < |rewards1| && k < |rewards2|
    requires rewards1[..k + 1] == rewards2[..k + 1] && dones1[..k + 1] == dones2[..k + 1]
    requires dones1[k] == 1.0
    ensures NStepTarget(rewards1, dones1, gamma, boot1) == NStepTarget(rewards2, dones2, gamma, boot2)
    decreases k
  {
    assert rewards1[0] == rewards1[..k + 1][0] && rewards2[0] == rewards2[..k + 1][0];
    assert dones1[0] == dones1[..k + 1][0] && dones2[0] == dones2[..k + 1][0];
    if k > 0 {
      assert rewards1[1..][..k] == rewards1[..k + 1][1..];
      assert rewards2[1..][..k] == rewards2[..k + 1][1..];
      assert dones1[1..][..k] == dones1[..k + 1][1..];
      assert dones2[1..][..k] == dones2[..k + 1][1..];
      DoneMasksLaterSteps(rewards1[1..], dones1[1..], boot1, rewards2[1..], dones2[1..], boot2, gamma, k - 1);
    }
  }

  /**
    When the episode ends at position k (the first done flag), the target is
    the discounted sum of the rewards up to and including k, with no bootstrap.
  */
  lemma {:induction false} TerminatedTarget(rewards: seq<real>, dones: seq<real>, gamma: real, boot: real, k: nat)
    requires |dones| == |rewards| && k < |rewards|
    requires dones[k] == 1.0
    requires forall i :: 0 <= i < k ==> dones[i] == 0.0
    ensures NStepTarget(rewards, dones, gamma, boot) == DiscountedSum(rewards[..k + 1], gamma)
    decreases k
  {
    var prefix := rewards[..k + 1];
    DiscountedSumCons(prefix, gamma);
    if k == 0 {
      assert prefix[1..] == [];
    } else {
      TerminatedTarget(rewards[1..], dones[1..], gamma, boot, k - 1);
      assert prefix[1..] == rewards[1..][..k];
    }
  }

  /**
    With 0 <= gamma and every done flag at most 1, the target is monotone in
    the bootstrap value.
  */
  lemma {:induction false} NStepMonotoneInBoot(rewards: seq<real>, dones: seq<real>, gamma: real, boot1: real, boot2: real)
    requires |dones| == |rewards|
    requires 0.0 <= gamma
    requires forall i :: 0 <= i < |dones| ==> dones[i] <= 1.0
    requires boot1 <= boot2
    ensures NStepTarget(rewards, dones, gamma, boot1) <= NStepTarget(rewards, dones, gamma, boot2)
    decreases |rewards|
  {
    if |rewards| > 0 {
      NStepMonotoneInBoot(rewards[1..], dones[1..], gamma, boot1, boot2);
      var t1 := NStepTarget(rewards[1..], dones[1..], gamma, boot1);
      var t2 := NStepTarget(rewards[1..], dones[1..], gamma, boot2);
      var w := (1.0 - dones[0]) * gamma;
      assert 0.0 <= w;
      assert w * t1 <= w * t2;
    }
  }
}
