/**
  DDPG: Ornstein-Uhlenbeck exploration noise, the one-step critic target, the
  soft update of the target critic and the per-step scheduler. Network
  parameters are flattened into one array of reals per network; what the
  optimizers compute is passed in.
*/
module DDPG {
  import opened Returns
  import opened Bootstrap

  // ---------------------------------------------------------------------------
  // One-step target

  /**
    reward + (1 - done) * gamma * next_q: the n = 1 instance of the n-step
    fold, bootstrapped from the target critic's value of the target actor's
    next action.
  */
  function OneStepTarget(reward: real, done: real, gamma: real, nextQ: real): (t: real)
    ensures t == NStepTarget([reward], [done], gamma, nextQ)
    ensures done == 1.0 ==> t == reward
  {
    reward + (1.0 - done) * gamma * nextQ
  }

  // ---------------------------------------------------------------------------
  // Ornstein-Uhlenbeck noise

  /**
    One OU step: X + theta * (mu - X) + sigma * n. The draw n is a single
    number shared by every component, because len(X) of the (1, action_size)
    array is 1.
  */
  function OUStep(x: seq<real>, mu: real, theta: real, sigma: real, noise: real): seq<real>
  {
    seq(|x|, i requires 0 <= i < |x| => x[i] + (theta * (mu - x[i]) + sigma * noise))
  }

  /** Without diffusion, a state at mu stays at mu. */
  lemma OUFixedPoint(x: seq<real>, mu: real, theta: real, noise: real)
    requires forall i :: 0 <= i < |x| ==> x[i] == mu
    ensures OUStep(x, mu, theta, 0.0, noise) == x
  {
    var y := OUStep(x, mu, theta, 0.0, noise);
    forall i | 0 <= i < |x|
      ensures y[i] == x[i]
    {
      assert mu - x[i] == 0.0;
    }
  }

  /**
    Without diffusion and with 0 <= theta <= 1, every component's distance to
    mu shrinks by the factor 1 - theta.
  */
  lemma OUContracts(x: seq<real>, mu: real, theta: real, noise: real)
    requires 0.0 <= theta <= 1.0
    ensures |OUStep(x, mu, theta, 0.0, noise)| == |x|
    ensures forall i :: 0 <= i < |x| ==>
              Abs(OUStep(x, mu, theta, 0.0, noise)[i] - mu) == (1.0 - theta) * Abs(x[i] - mu)
  {
    var y := OUStep(x, mu, theta, 0.0, noise);
    forall i | 0 <= i < |x|
      ensures Abs(y[i] - mu) == (1.0 - theta) * Abs(x[i] - mu)
    {
      var c, d := 1.0 - theta, x[i] - mu;
      assert y[i] - mu == c * d;
      if d < 0.0 {
        assert c * d == -(c * -d);
        assert 0.0 <= c * -d;
      } else {
        assert 0.0 <= c * d;
      }
    }
  }

  /**
    Because the draw is shared, the gap between two components only shrinks by
    1 - theta, whatever the noise: components that are equal stay equal.
  */
  lemma OUSharedDraw(x: seq<real>, mu: real, theta: real, sigma: real, noise: real, i: nat, j: nat)
    requires i < |x| && j < |x|
    ensures |OUStep(x, mu, theta, sigma, noise)| == |x|
    ensures OUStep(x, mu, theta, sigma, noise)[i] - OUStep(x, mu, theta, sigma, noise)[j]
            == (1.0 - theta) * (x[i] - x[j])
  {
  }

  /** The noise process; X is overwritten by reset and by sample. */
  class OUNoise {
    const actionSize: nat
    const mu: real
    const theta: real
    const sigma: real
    var x: seq<real>

    /** X has one entry per action, and all entries are equal (they share every draw). */
    ghost predicate Valid()
      reads this
    {
      && |x| == actionSize
      && forall i :: 0 <= i < |x| ==> x[i] == x[0]
    }

    constructor (actionSize: nat, mu: real, theta: real, sigma: real)
      ensures Valid()
      ensures this.actionSize == actionSize && this.mu == mu && this.theta == theta && this.sigma == sigma
      ensures forall i :: 0 <= i < |x| ==> x[i] == mu
    {
      this.actionSize := actionSize;
      this.mu := mu;
      this.theta := theta;
      this.sigma := sigma;
      new;
      Reset();
    }

    /** X := mu in every component. */
    method Reset()
      modifies this
      ensures Valid()
      ensures forall i :: 0 <= i < |x| ==> x[i] == mu
    {
      x := seq(actionSize, _ => mu);
    }

    /** X := X + theta * (mu - X) + sigma * noise, where noise is the draw; returns the new X. */
    method Sample(noise: real) returns (s: seq<real>)
      requires Valid()
      modifies this
      ensures Valid()
      ensures x == OUStep(old(x), mu, theta, sigma, noise)
      ensures s == x
    {
      x := OUStep(x, mu, theta, sigma, noise);
      s := x;
    }
  }

  // ---------------------------------------------------------------------------
  // Soft target update

  /** tau * p + (1 - tau) * t for every parameter position. */
  function SoftUpdate(target: seq<real>, online: seq<real>, tau: real): seq<real>
    requires |target| == |online|
  {
    seq(|target|, i requires 0 <= i < |target| => tau * online[i] + (1.0 - tau) * target[i])
  }

  /** tau = 1 copies the online parameters; tau = 0 leaves the target as it is. */
  lemma SoftUpdateEndpoints(target: seq<real>, online: seq<real>)
    requires |target| == |online|
    ensures SoftUpdate(target, online, 1.0) == online
    ensures SoftUpdate(target, online, 0.0) == target
  {
  }

  /** With 0 <= tau <= 1 every new parameter lies between the old target and the online one. */
  lemma SoftUpdateConvex(target: seq<real>, online: seq<real>, tau: real, i: nat)
    requires |target| == |online| && i < |target|
    requires 0.0 <= tau <= 1.0
    ensures target[i] <= online[i] ==> target[i] <= SoftUpdate(target, online, tau)[i] <= online[i]
    ensures online[i] <= target[i] ==> online[i] <= SoftUpdate(target, online, tau)[i] <= target[i]
  {
    var d := online[i] - target[i];
    assert SoftUpdate(target, online, tau)[i] == target[i] + tau * d;
    assert 0.0 <= d ==> 0.0 <= tau * d <= d;
    assert d <= 0.0 ==> d <= tau * d <= 0.0;
  }

  /** k soft updates towards fixed online parameters. */
  function SoftUpdates(target: seq<real>, online: seq<real>, tau: real, k: nat): (r: seq<real>)
    requires |target| == |online|
    ensures |r| == |target|
  {
    if k == 0 then target else SoftUpdate(SoftUpdates(target, online, tau, k - 1), online, tau)
  }

  /** One parameter after k soft updates towards a fixed online value o. */
  function Blend(t: real, o: real, tau: real, k: nat): real
  {
    if k == 0 then t else tau * o + (1.0 - tau) * Blend(t, o, tau, k - 1)
  }

  /** Position i of k soft updates evolves on its own, as Blend. */
  lemma {:induction false} SoftUpdatesAt(target: seq<real>, online: seq<real>, tau: real, k: nat, i: nat)
    requires |target| == |online| && i < |target|
    ensures SoftUpdates(target, online, tau, k)[i] == Blend(target[i], online[i], tau, k)
  {
    if k > 0 {
      SoftUpdatesAt(target, online, tau, k - 1, i);
    }
  }

  /** One step of the geometric gap, kept apart from the recursion. */
  lemma GapStep(tau: real, o: real, p: real, s: real, q: real, pw: real, g0: real)
    requires s == tau * o + (1.0 - tau) * p
    requires p - o == q * g0
    requires pw == (1.0 - tau) * q
    ensures s - o == pw * g0
  {
    assert s - o == (1.0 - tau) * (p - o);
  }

  /** The gap to o after k blends is (1 - tau)^k times the initial gap. */
  lemma {:induction false} BlendGap(t: real, o: real, tau: real, k: nat)
    ensures Blend(t, o, tau, k) - o == Power(1.0 - tau, k) * (t - o)
  {
    if k == 0 {
      assert Power(1.0 - tau, k) == 1.0;
    } else {
      BlendGap(t, o, tau, k - 1);
      GapStep(tau, o, Blend(t, o, tau, k - 1), Blend(t, o, tau, k),
              Power(1.0 - tau, k - 1), Power(1.0 - tau, k), t - o);
    }
  }

  /**
    While the critic does not change, the gap between the target critic and
    the critic shrinks geometrically: after k updates it is (1 - tau)^k times
    the initial gap.
  */
  lemma SoftUpdatesGap(target: seq<real>, online: seq<real>, tau: real, k: nat, i: nat)
    requires |target| == |online| && i < |target|
    ensures SoftUpdates(target, online, tau, k)[i] - online[i] == Power(1.0 - tau, k) * (target[i] - online[i])
  {
    SoftUpdatesAt(target, online, tau, k, i);
    BlendGap(target[i], online[i], tau, k);
  }

  // ---------------------------------------------------------------------------
  // Agent

  class DDPGAgent {
    const actor: array<real>
    const critic: array<real>
    const targetActor: array<real>
    const targetCritic: array<real>
    const ou: OUNoise
    const gamma: real
    const tau: real
    const batchSize: int
    const startTrainStep: int
    var numLearn: nat

    /** The four parameter vectors are distinct arrays; each target has its network's shape. */
    ghost predicate Valid()
      reads this, ou
    {
      && ou.Valid()
      && actor.Length == targetActor.Length
      && critic.Length == targetCritic.Length
      && actor != critic && actor != targetActor && actor != targetCritic
      && critic != targetActor && critic != targetCritic
      && targetActor != targetCritic
    }

    /**
      The networks start from the given parameters; the targets are loaded
      from the actor and the critic.
    */
    constructor (actorInit: seq<real>, criticInit: seq<real>, actionSize: nat,
                 mu: real, theta: real, sigma: real,
                 gamma: real, tau: real, batchSize: int, startTrainStep: int)
      ensures Valid()
      ensures fresh(actor) && fresh(critic) && fresh(targetActor) && fresh(targetCritic) && fresh(ou)
      ensures actor[..] == actorInit && targetActor[..] == actorInit
      ensures critic[..] == criticInit && targetCritic[..] == criticInit
      ensures ou.actionSize == actionSize && ou.mu == mu && ou.theta == theta && ou.sigma == sigma
      ensures forall i :: 0 <= i < |ou.x| ==> ou.x[i] == mu
      ensures this.gamma == gamma && this.tau == tau
      ensures this.batchSize == batchSize && this.startTrainStep == startTrainStep
      ensures numLearn == 0
    {
      actor := new real[|actorInit|](i requires 0 <= i < |actorInit| => actorInit[i]);
      critic := new real[|criticInit|](i requires 0 <= i < |criticInit| => criticInit[i]);
      targetActor := new real[|actorInit|](i requires 0 <= i < |actorInit| => actorInit[i]);
      targetCritic := new real[|criticInit|](i requires 0 <= i < |criticInit| => criticInit[i]);
      ou := new OUNoise(actionSize, mu, theta, sigma);
      this.gamma := gamma;
      this.tau := tau;
      this.batchSize := batchSize;
      this.startTrainStep := startTrainStep;
      numLearn := 0;
    }

    /**
      act: in training the actor's output (one row per state) is shifted by a
      fresh OU sample; otherwise it is returned as it is and the noise state
      does not move. noise is the normal draw; training defaults to true.
    */
    method Act(actorOut: seq<seq<real>>, noise: real, training: bool := true) returns (action: seq<seq<real>>)
      requires Valid()
      requires forall b :: 0 <= b < |actorOut| ==> |actorOut[b]| == ou.actionSize
      modifies ou
      ensures Valid()
      ensures !training ==> action == actorOut && ou.x == old(ou.x)
      ensures training ==> ou.x == OUStep(old(ou.x), ou.mu, ou.theta, ou.sigma, noise)
      ensures |action| == |actorOut|
      ensures training ==> forall b :: 0 <= b < |action| ==>
                |action[b]| == |actorOut[b]|
                && forall i :: 0 <= i < |action[b]| ==> action[b][i] == actorOut[b][i] + ou.x[i]
    {
      if training {
        var s := ou.Sample(noise);
        action := seq(|actorOut|, b requires 0 <= b < |actorOut| =>
                    seq(|actorOut[b]|, i requires 0 <= i < |actorOut[b]| && i < |s| => actorOut[b][i] + s[i]));
      } else {
        action := actorOut;
      }
    }

    /**
      The bookkeeping of one learn: the critic and the actor take the
      parameters their optimizer steps produce, and num_learn goes up by one.
      The targets are not touched.
    */
    method Learn(criticStep: seq<real>, actorStep: seq<real>)
      requires Valid()
      requires |criticStep| == critic.Length && |actorStep| == actor.Length
      modifies this, critic, actor
      ensures Valid()
      ensures numLearn == old(numLearn) + 1
      ensures critic[..] == criticStep && actor[..] == actorStep
      ensures unchanged(targetCritic) && unchanged(targetActor)
    {
      forall i | 0 <= i < critic.Length {
        critic[i] := criticStep[i];
      }
      forall i | 0 <= i < actor.Length {
        actor[i] := actorStep[i];
      }
      numLearn := numLearn + 1;
    }

    /** update_target_soft: only the target critic moves, in place, towards the critic. */
    method UpdateTargetSoft()
      requires Valid()
      modifies targetCritic
      ensures targetCritic[..] == SoftUpdate(old(targetCritic[..]), critic[..], tau)
      ensures unchanged(targetActor) && unchanged(critic) && unchanged(actor)
    {
      ghost var before := targetCritic[..];
      var i := 0;
      while i < targetCritic.Length
        invariant 0 <= i <= targetCritic.Length
        invariant forall j :: 0 <= j < i ==> targetCritic[j] == tau * critic[j] + (1.0 - tau) * before[j]
        invariant forall j :: i <= j < targetCritic.Length ==> targetCritic[j] == before[j]
      {
        targetCritic[i] := tau * critic[i] + (1.0 - tau) * targetCritic[i];
        i := i + 1;
      }
      assert forall j :: 0 <= j < targetCritic.Length ==>
               targetCritic[..][j] == SoftUpdate(before, critic[..], tau)[j];
    }

    /**
      One call of process(transitions, step). memorySize is the memory's size
      after the transitions were stored; criticStep and actorStep are what the
      optimizer steps produce if this call learns.
    */
    method Process(step: int, memorySize: int, criticStep: seq<real>, actorStep: seq<real>)
      returns (learned: bool, softUpdated: bool)
      requires Valid()
      requires |criticStep| == critic.Length && |actorStep| == actor.Length
      modifies this, critic, actor, targetCritic
      ensures Valid()
      ensures learned <==> memorySize > batchSize && step >= startTrainStep
      ensures numLearn == old(numLearn) + (if learned then 1 else 0)
      ensures critic[..] == if learned then criticStep else old(critic[..])
      ensures actor[..] == if learned then actorStep else old(actor[..])
      ensures softUpdated <==> numLearn > 0
      ensures targetCritic[..] == if softUpdated then SoftUpdate(old(targetCritic[..]), critic[..], tau)
                                  else old(targetCritic[..])
      ensures unchanged(targetActor)
      ensures ou.x == old(ou.x)
    {
      learned := false;
      if memorySize > batchSize && step >= startTrainStep {
        Learn(criticStep, actorStep);
        learned := true;
      }
      softUpdated := false;
      if numLearn > 0 {
        UpdateTargetSoft();
        softUpdated := true;
      }
    }
  }
}
