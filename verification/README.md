# JORLDY agent bookkeeping, modelled in Dafny

JORLDY is a reinforcement-learning framework. Each agent has a `process(transitions, step)`
method that the runtime calls once per environment step. The method stores the transitions,
decides whether to run `learn`, and keeps the target network in step with the online network.
This project models what those agents do besides the neural-network arithmetic:

- **Step schedulers.** These are the `process` methods of the Ape-X agent, the multi-step DQN agent and
  the DDPG agent. Each is a class with the source's counters as fields: `time_t`,
  `target_update_stamp`, `learn_period_stamp`, `num_learn` and `beta`. Its methods update
  those fields in place.
- **The n-step bootstrapped target.** Ape-X and multi-step DQN both compute it, as a right-to-left fold
  `t := r_i + (1 - d_i) * gamma * t`. Ape-X starts the fold from a double-Q bootstrap
  (argmax on the online network, evaluated on the target network). Multi-step DQN starts it
  from the maximum of the target network. DDPG's critic target is the one-step instance.
- **Ape-X's scalar schedules.** These are beta annealing, the per-worker epsilon exponent, and the loop
  that writes new priorities back to the replay memory.
- **DDPG's remaining state.** This is the Ornstein-Uhlenbeck exploration noise, the gating of that noise in
  `act`, and the in-place soft update of the target critic.
- **`MetricManager`.** This is a dictionary from metric names to lists of values. `append` grows the
  lists, and `get_statistics` reports their means and empties them.

Network outputs, optimizer results, normal draws and replay-memory sizes are parameters of the
model. The network parameters of DDPG are flattened into one `array<real>` per network.

Files:

| file | module | contents |
|---|---|---|
| `wrappers.dfy` | `Wrappers` | `Option` |
| `returns.dfy` | `Returns` | the n-step fold `NStepTarget`, its loop, and the reference `DiscountedSum` with lemmas |
| `bootstrap.dfy` | `Bootstrap` | `Max`, `Argmax`, the double-Q bootstrap, the one-hot selection and the TD error |
| `apex.dfy` | `ApeX` | the Ape-X target, the priority write-back, beta, the epsilon exponent, `ApeXAgent` |
| `multistep.dfy` | `Multistep` | the multi-step target, `MultistepDQNAgent` |
| `ddpg.dfy` | `DDPG` | the one-step target, `OUNoise`, the soft update, `DDPGAgent` |
| `managers.dfy` | `Managers` | `MetricManager` and the functions that specify it |

The specification functions carry no row of their own below. Their meaning is stated by the
lemmas and methods that use them:

- `Returns.NStepTarget` is the fold;
- `Returns.DiscountedSum` is an independent left-to-right sum of `gamma^i * r_i`;
- `Bootstrap.OneHotDot` is the product of a row with a one-hot vector, summed along the action axis;
- `ApeX.ApeXTarget` and `Multistep.MultistepTarget` are the fold started from each agent's bootstrap;
- `ApeX.BetaAfter` is beta after k learns;
- `DDPG.OUStep`, `DDPG.SoftUpdate` and `DDPG.SoftUpdates` give one noise step, one soft update and k soft updates;
- `Managers.Mean` is the mean (0 for an empty list), and `Managers.Appended`, `Managers.Cleared`,
  `Managers.AppendAll` and `Managers.Collected` describe the metric dictionary.

## Model

| member | source | states |
|---|---|---|
| Returns.ComputeNStepTarget | core/agent/apex.py:63-64 | The loop over `reversed(range(n_step))` leaves exactly the value of the fold `NStepTarget` in `target_q`. The same loop is at core/agent/multistep.py:28-29. |
| Returns.DiscountedSumCons | core/agent/apex.py:63-64 | The reference sum `sum_i gamma^i * r_i` peels off its first reward as `r_0 + gamma * (sum over the rest)`, which is the shape of one fold step. |
| Returns.AppendTerminalStep | core/agent/multistep.py:28-29 | Appending a terminal step (done = 1) with reward r makes r the bootstrap of the shorter window, whatever bootstrap value follows it. |
| Returns.NoDoneClosedForm | core/agent/apex.py:63-64 | With no done flag in the window, the target is the discounted sum of the rewards followed by the bootstrap value, i.e. `sum_{i<n} gamma^i * r_i + gamma^n * boot`. |
| Returns.DoneMasksLaterSteps | core/agent/multistep.py:28-29 | If `done_k = 1`, two windows that agree on positions 0..k have the same target, whatever their later rewards, later done flags and bootstrap values are. |
| Returns.TerminatedTarget | core/agent/apex.py:63-64 | If the first done flag is at k, the target is the discounted sum of `r_0..r_k`, with no bootstrap. |
| Returns.NStepMonotoneInBoot | core/agent/apex.py:63-64 | For `gamma >= 0` and done flags <= 1, the target is monotone in the bootstrap value. |
| Bootstrap.Max | core/agent/multistep.py:25-26 | `max` along the action axis is an entry of the row, and no entry exceeds it. |
| Bootstrap.Argmax | core/agent/apex.py:56 | `argmax` is an index of the row whose entry is maximal, and every earlier entry is strictly smaller (the first maximum). |
| Bootstrap.OneHotPicks | core/agent/multistep.py:20-22 | The product of a row with the one-hot vector of action a, summed along the action axis, is the row's entry a (0 when a is outside the row). |
| Bootstrap.DoubleQBootstrap | core/agent/apex.py:55-61 | The one-hot product of the target network's row with the online network's argmax is `targetNext[argmax(onlineNext)]`, the target network's value at an action that maximises the online network's next-state row. |
| Bootstrap.DoubleQAtMostMax | core/agent/apex.py:55-61 | The double-Q bootstrap never exceeds the maximum of the target row, and equals it when both networks give the same row. |
| Bootstrap.TakenValue | core/agent/apex.py:49-51 | `(network(state) * one_hot_action).sum(1)` is exactly the row's entry at the taken action. |
| Bootstrap.TdError | core/agent/apex.py:67 | `abs(target_q - q)` is >= 0, is 0 exactly when the two are equal, and is one of the two differences. |
| ApeX.ApeXTargetAtMostMaxTarget | core/agent/apex.py:53-64 | For `gamma >= 0` and done flags <= 1, the Ape-X target is at most the target bootstrapped from the plain maximum of the target network. |
| ApeX.UpdatePriorities | core/agent/apex.py:69-70 | The loop over `zip(indices, p_j)` makes one `update_priority` call per sampled index, in sample order, each with that sample's priority. The number of calls is the shorter of the two lengths. |
| ApeX.AnnealBeta | core/agent/apex.py:73 | The new beta is at most both 1 and `beta + beta_add`, and equals one of them, so it is `min(1.0, beta + beta_add)`. It does not decrease beta when `beta_add >= 0` and `beta <= 1`. |
| ApeX.BetaAfterClosedForm | core/agent/apex.py:73 | After k learns, beta is `min(1, beta0 + k * beta_add)`. |
| ApeX.BetaAfterMonotone | core/agent/apex.py:73 | Beta never decreases from one learn to a later one and never exceeds 1. |
| ApeX.BetaReachesOne | core/agent/apex.py:73 | Beta is 1 after every k with `k * beta_add >= 1 - beta0` learns. The count is of learns, not of environment steps. |
| ApeX.EpsilonExponent | core/agent/apex.py:118-119 | The exponent `1 + (id/(num_worker-1)) * epsilon_alpha` is undefined (None) exactly when `num_worker = 1`. It is 1 for `id = 0` and lies in `[1, 1 + epsilon_alpha]` for `0 <= id <= num_worker - 1`. |
| ApeX.ExponentMonotone | core/agent/apex.py:119 | A worker with a higher id gets an exponent at least as large. The exponent is strictly larger when `epsilon_alpha > 0`, so the workers' epsilons are spread out. |
| ApeX.ApeXAgent.constructor | core/agent/apex.py:35-39 | The counters start at 0, beta at its initial value, and `beta_add = 1/explore_step`. |
| ApeX.ApeXAgent.Learn | core/agent/apex.py:72-84 | One learn anneals beta and adds exactly 1 to `num_learn`. No counter of `process` changes. |
| ApeX.ApeXAgent.Process | core/agent/apex.py:95-116 | `time_t := step`, and `delta_t` is added to both stamps. Learn runs iff `learn_period_stamp > learn_period`, `buffer_counter > batch_size` and `time_t >= start_train_step`; it then bumps `num_learn` by 1, anneals beta and zeroes `learn_period_stamp`. The target is refreshed iff `num_learn > 0` and `target_update_stamp > target_update_period`; the stamp is then 0 and otherwise keeps accumulating. The invariant ties each stamp to the time since the last learn or refresh, and beta to the number of learns. |
| Multistep.MultistepDoneIgnoresBootstrap | core/agent/multistep.py:25-29 | A done flag anywhere in the window makes the multi-step target independent of the target network's next-state row. |
| Multistep.MultistepDQNAgent.constructor | core/agent/multistep.py:9-12 | The counters start at 0. |
| Multistep.MultistepDQNAgent.Learn | core/agent/multistep.py:37 | One learn adds exactly 1 to `num_learn` and leaves the other counters alone. |
| Multistep.MultistepDQNAgent.Process | core/agent/multistep.py:47-67 | `time_t := step`, and `delta_t` is added to `target_update_stamp`. Learn runs iff `memory.size > batch_size` and `time_t >= start_train_step`, with no learn-period gating. Epsilon is decayed iff `num_learn > 0` after the learn, so never before the first learn. The target is refreshed iff additionally `target_update_stamp > target_update_period`, after which the stamp is 0. |
| DDPG.OneStepTarget | core/agent/ddpg.py:97 | `reward + (1 - done) * gamma * next_q` is the fold over a one-step window, and equals the reward when `done = 1`. |
| DDPG.OUFixedPoint | core/agent/ddpg.py:27-29 | With `sigma = 0`, a state with every component at mu stays at mu. |
| DDPG.OUContracts | core/agent/ddpg.py:27-29 | With `sigma = 0` and `0 <= theta <= 1`, the distance of each component to mu is multiplied by `1 - theta`. |
| DDPG.OUSharedDraw | core/agent/ddpg.py:28 | Because one draw is shared by all components, the difference between two components is multiplied by `1 - theta`, whatever the draw. |
| DDPG.OUNoise.constructor | core/agent/ddpg.py:15-22 | The parameters are stored and the state is reset: `action_size` components, all equal to mu. |
| DDPG.OUNoise.Reset | core/agent/ddpg.py:24-25 | Every component of X becomes mu. |
| DDPG.OUNoise.Sample | core/agent/ddpg.py:27-30 | `X := X + theta * (mu - X) + sigma * n` with one draw n for every component, and the new X is returned. The components stay equal to each other. |
| DDPG.SoftUpdateEndpoints | core/agent/ddpg.py:124-126 | `tau = 1` copies the critic into the target critic, and `tau = 0` leaves the target critic as it is. |
| DDPG.SoftUpdateConvex | core/agent/ddpg.py:126 | For `0 <= tau <= 1`, each new target parameter lies between its old value and the critic's value. |
| DDPG.SoftUpdatesAt | core/agent/ddpg.py:124-126 | Under repeated soft updates towards a fixed critic, each parameter position evolves independently of the others. |
| DDPG.BlendGap | core/agent/ddpg.py:126 | After k updates of one parameter towards a fixed value o, its gap to o is `(1 - tau)^k` times the initial gap. |
| DDPG.SoftUpdatesGap | core/agent/ddpg.py:124-126 | While the critic is fixed, the gap between target critic and critic at every position shrinks as `(1 - tau)^k`. |
| DDPG.DDPGAgent.constructor | core/agent/ddpg.py:55-72 | The target actor and target critic start as copies of the actor and critic in separate arrays. The OU state starts at mu, and `num_learn` at 0. |
| DDPG.DDPGAgent.Act | core/agent/ddpg.py:74-80 | `training` defaults to true. With `training = False`, the actor output is returned unchanged and the OU state does not move. With `training = True`, the OU state takes one step and every row of the output is shifted by the new X. |
| DDPG.DDPGAgent.Learn | core/agent/ddpg.py:101-115 | The critic and the actor take their optimizer steps, `num_learn` goes up by exactly 1, and neither target moves. |
| DDPG.DDPGAgent.UpdateTargetSoft | core/agent/ddpg.py:124-126 | Each target-critic parameter becomes `tau * p + (1 - tau) * t`, in place. The target actor, critic and actor are untouched. |
| DDPG.DDPGAgent.Process | core/agent/ddpg.py:128-138 | Learn runs iff `memory.size > batch_size` and `step >= start_train_step`. The soft update runs on every call once `num_learn > 0`, whether or not this call learned. The target actor is never modified, and the OU state is not touched. |
| Managers.SumBounds | managers.py:20 | A sum of n values in `[lo, hi]` lies in `[n * lo, n * hi]`. |
| Managers.MeanBounds | managers.py:20 | The mean of a non-empty list lies within any bounds of its values. |
| Managers.Appended | managers.py:10-14 | After `append(result)`, the keys are the old keys plus those of `result`. Each key of `result` has its value at the end of its list, which starts empty for an unseen key. Every other list is unchanged. |
| Managers.AppendAllCollects | managers.py:10-14 | After a sequence of appends, a key is present iff it was present before or some result reported it. Its list is the old list followed by every reported value, in order. |
| Managers.ReportAveragesAppendedValues | managers.py:10-22 | Round trip: after a report has emptied the lists, the next report averages exactly the values appended in between. |
| Managers.MetricManager.constructor | managers.py:7-8 | The dictionary starts empty. |
| Managers.MetricManager.Append | managers.py:10-14 | The loop over `result.items()` leaves the dictionary equal to `Appended(old, result)`. |
| Managers.MetricManager.GetStatistics | managers.py:16-22 | `mode` defaults to `'mean'`. For `'mean'`, the report has exactly the keys of the dictionary, each with the mean of its list (0 if empty); afterwards every list is empty and every key is kept. For any other mode, the report is empty and the dictionary unchanged. |

## Left out

- Network forward and backward passes, losses, gradient clipping and optimizers are left out. The values they produce enter as parameters: the next-state rows, the priorities and the new parameter vectors. The result dictionaries that `learn` returns (`loss`, `max_Q`, `sampled_p`, `mean_p`, `epsilon`) are not modelled.
- The replay memories (`PERMultistepBuffer`, `MultistepBuffer`, `ReplayBuffer`) are not part of this model. `store` and `sample` are left out, `update_priority` calls are returned as a list, and `memory.size` and `buffer_counter` are parameters of `Process`.
- Real exponentiation has no primitive here. `ApeX.UpdatePriorities` takes the priorities `td_error ** alpha` as given, and `ApeX.EpsilonExponent` models only the exponent, not `epsilon ** exponent`.
- Bootstrap.TakenValue requires the action to be an index of the row. An out-of-range action makes the source's `eye[...]` indexing raise, and the model does not model that exception.
- Randomness: the normal draw of the OU noise is a parameter of `Sample` and `Act`.
- Floating point is modelled as exact reals. This covers float32 tensors and `round(..., 4)` in `get_statistics`, and means `Managers.Mean` is the unrounded mean. The empty-list value is the real 0 rather than the integer 0.
- The base class `DQNAgent` (core/agent/dqn.py) is not part of this model. `time_t`, `target_update_stamp` and `num_learn` are taken to start at 0, and `update_target` and `epsilon_decay` are recorded only as having happened. `ApeX.ApeXAgent.Process` and `Multistep.MultistepDQNAgent.Process` report them as `synced` and `decayed`, and ghost counters count them.
- `ApeX.ApeXAgent.constructor`: `beta_add = 1/explore_step` raises ZeroDivisionError for `explore_step = 0`. The constructor requires `explore_step != 0` instead of modelling the exception.
- The `set_distributed` division by zero for `num_worker = 1` is modelled as `None`, not as an exception.
- Python's dictionary iteration order is not modelled. `append` and `get_statistics` loop over the keys in an arbitrary order, which does not change their result.
- `LogManager`, `save`/`load`, `sync_in`/`sync_out`, `print` and the configuration files are left out: they are file I/O, TensorBoard output or literal data.
- In DDPG, the target actor is loaded from the actor once, at construction, and `update_target_soft` touches only the target critic. The model states that as the source's behaviour, and `DDPG.DDPGAgent.Process` ensures the target actor is unchanged.
