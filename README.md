# imitation `util` core in Dafny

This project models the numeric core of `imitation.util`:

- **Input normalisers** (`networks.py`).
  - **The `BaseNorm` buffers.** `running_mean`, `running_var` and `count` are one class, `Networks.Normalizer`. Its `kind` is `RunningNorm` or `EMANorm` with its `decay` and `decay_within_batch`.
  - **`reset_running_stats`.**
  - **`forward`.** It updates the statistics, then normalises.
  - **The two `update_stats`.** `RunningNorm` uses Chan et al.'s pairwise update. `EMANorm` uses the exponentially weighted update, with its first-update and later-update branches.
  - **The `EMANorm` constructor's check on `decay`.**
  - **`training_mode`.**
  - **The layer naming and validation of `build_mlp`.**
- **Integer and sequence helpers** (`util.py`).
  - `oric`, the largest-remainder rounding.
  - `make_seeds`.
  - `get_first_iter_element` and `endless_iter`, over sequences.
  - `tensor_iter_norm`.
  - The chunked k-th-nearest-distance selection of `compute_state_entropy`.

Floats are exact reals. numpy and torch vectors and matrices are sequences.

**File layout.**
- `wrappers.dfy` holds `Option` and `Result`.
- `stats.dfy` holds sums, means, population variances, weighted moments and powers over `seq<real>`.
- `networks.dfy` holds the normalisers.
- `mlp.dfy` holds `build_mlp`.
- `util.dfy` holds the helpers.

**How the normaliser proofs work.** Each `Normalizer` keeps two ghost fields:
- `seen`: the rows seen since the last reset;
- `weights`: for `EMANorm`, the weight each of those rows carries.

`Valid()` ties the buffers to this data, feature by feature:
- **`RunningNorm`.** The mean and variance summarise the column: `mean·n = Σx` and `(var + mean²)·n = Σx²`. So after any sequence of updates they are the mean and the population variance of all the data (`RunningMomentsOfSeen`).
- **`EMANorm`.** They are the weighted mean and variance of the column. The weights are non-negative and sum to at most 1. After a reset and any sequence of non-empty batches they sum to exactly 1 (`WeightsSumToOne`). An empty later batch of a uniform `EMANorm` only multiplies them by `decay` (`EmptyBatchScalesWeights`).

The update methods change the arrays step by step, as the source does with `+=`, `*=` and `/=`.

## Model

| member | source | states |
|---|---|---|
| Networks.Normalizer.constructor | src/imitation/util/networks.py:58-71 | buffers of `num_features` entries, reset to mean 0 / variance 1, count 0, module in training mode |
| Networks.Normalizer.ResetRunningStats | src/imitation/util/networks.py:73-77 | every mean is 0, every variance 1, count 0; no data is seen afterwards and the invariant holds |
| Networks.Normalizer.UpdateStats | src/imitation/util/networks.py:91-93 | the subclass update: count grows by exactly the batch size, the seen data grows by the batch, and each feature's statistics are `FeatureUpdate` of the old ones; it fails exactly when the update is undefined, leaving the state unchanged |
| Networks.Normalizer.Forward | src/imitation/util/networks.py:79-89 | in training mode the statistics are updated first and the output is normalised with the updated buffers; in evaluation mode nothing changes |
| Networks.Normalizer.Train | src/imitation/util/networks.py:26 | `m.train(mode)`: sets the flag and leaves the statistics unchanged |
| Networks.Normalizer.ForwardInMode | src/imitation/util/networks.py:12-30 | within `training_mode(m, mode)` a forward call behaves as under `mode`, and the old training flag is restored |
| Networks.Normalizer.RunningUpdate | src/imitation/util/networks.py:116-129 | Chan update per feature, count increased by the batch size, invariant kept |
| Networks.Normalizer.ChanBuffers | src/imitation/util/networks.py:120-127 | the in-place sequence of `+=`, `*=`, `/=` leaves `ChanUpdate` of the old moments in the buffers |
| Networks.Normalizer.MeanAddShare | src/imitation/util/networks.py:122 | `running_mean += delta * batch_count / tot_count`, element-wise |
| Networks.Normalizer.VarScale | src/imitation/util/networks.py:124 | `running_var *= count` |
| Networks.Normalizer.VarAddBatch | src/imitation/util/networks.py:125 | `running_var += batch_var * batch_count` |
| Networks.Normalizer.VarAddCross | src/imitation/util/networks.py:126 | `running_var += delta² * count * batch_count / tot_count` |
| Networks.Normalizer.VarDivide | src/imitation/util/networks.py:127 | `running_var /= tot_count` |
| Networks.Normalizer.RunningMomentsOfSeen | src/imitation/util/networks.py:116-129 | after any updates, a `RunningNorm` holds the mean and the population variance of all data since the reset |
| Networks.Normalizer.EmaUpdate | src/imitation/util/networks.py:162-216 | EMA update per feature, first-update or later branch by `count == 0`, count increased by the batch size, weights re-weighted, invariant kept |
| Networks.Normalizer.EmaFirstBuffers | src/imitation/util/networks.py:178-187 | the first update stores the weighted batch mean and weighted variance (0 for a single row) |
| Networks.Normalizer.EmaLaterBuffers | src/imitation/util/networks.py:189-214 | the later update: store `rw·(var + mean²)`, scale the mean, add the weighted batch sums, subtract the squared new mean |
| Networks.Normalizer.VarStoreSquares | src/imitation/util/networks.py:200-202 | `running_var = running_weight * (running_var + running_mean**2)` |
| Networks.Normalizer.MeanScale | src/imitation/util/networks.py:207 | `running_mean *= running_weight` |
| Networks.Normalizer.MeanAdd | src/imitation/util/networks.py:208 | `running_mean += weighted_batch_mean` |
| Networks.Normalizer.VarAdd | src/imitation/util/networks.py:211 | `running_var += sum(weighted_batch * batch)` |
| Networks.Normalizer.VarSubtractSquaredMean | src/imitation/util/networks.py:214 | `running_var -= running_mean**2` |
| Networks.NewEmaNorm | src/imitation/util/networks.py:135-160 | construction succeeds exactly when `0 < decay < 1`, giving a fresh, valid normaliser with that decay and weighting mode, count 0 and every feature reset to mean 0 / variance 1 |
| Networks.EmaKind | src/imitation/util/networks.py:156-160 | `ValueError` exactly unless `0 < decay < 1`; otherwise the EMA kind with the given decay and weighting mode |
| Networks.ChanUpdate | src/imitation/util/networks.py:116-127 | Chan et al.'s merge of the old moments over `count` samples with a batch's mean and population variance; `ChanMergesData` states what it means |
| Networks.BatchWeights | src/imitation/util/networks.py:172-176 | one weight per row: `decay^(b-1), ..., decay, 1` within the batch, else `1/b` each |
| Networks.FirstWeights | src/imitation/util/networks.py:178-181 | one weight per row; within the batch all but the first scaled by `1 - decay`; `FirstWeightsSum` shows they sum to 1 |
| Networks.RunningWeight | src/imitation/util/networks.py:189-192 | the old statistics' weight on a later update: `decay^b` within the batch, else `decay` |
| Networks.LaterWeights | src/imitation/util/networks.py:193 | one weight per row, the batch weights scaled by `1 - decay`; `LaterWeightsSum` shows they complete the running weight to 1 |
| Networks.EmaFirst | src/imitation/util/networks.py:182-187 | the first update of one feature; `EmaFirstMoments` and `EmaFirstUniform` state what it computes |
| Networks.EmaLater | src/imitation/util/networks.py:196-214 | a later update of one feature; `EmaLaterMoments` states what it computes |
| Networks.UpdateDefined | src/imitation/util/networks.py:116-190 | `update_stats` is defined except on an empty `RunningNorm` batch and on an empty later batch of a within-batch `EMANorm` |
| Networks.FeatureUpdate | src/imitation/util/networks.py:106-216 | the subclass update of one feature's statistics; `UpdateKeepsFeatureValid` shows it keeps the invariant |
| Networks.NextWeights | src/imitation/util/networks.py:172-194 | a `RunningNorm` keeps no weights; an `EMANorm` holds exactly one weight per sample seen since the reset |
| Networks.WeightsAfter | src/imitation/util/networks.py:162-216 | the `EMANorm` weights after a reset and a sequence of non-empty batches, as successive `update_stats` calls leave them |
| Networks.WeightsSumToOne | src/imitation/util/networks.py:172-194 | after at least one batch, none of them empty, the weights are non-negative and sum to exactly 1 |
| Networks.EmptyBatchScalesWeights | src/imitation/util/networks.py:176-193 | an empty later batch of a uniform `EMANorm` multiplies the old weights by `decay`, so their sum drops to `decay` times the old sum |
| Networks.ChanMeanWeighted | src/imitation/util/networks.py:120-122 | the new mean is the count-weighted mean of the old mean and the batch mean |
| Networks.ChanMergesData | src/imitation/util/networks.py:116-127 | combining the moments of `A` with those of `B` gives the mean and population variance of `A ++ B` |
| Networks.ChanFromEmpty | src/imitation/util/networks.py:116-127 | from `count == 0` the update yields the batch mean and the biased batch variance, whatever the old buffers held |
| Networks.ChanPreservesSummary | src/imitation/util/networks.py:116-129 | if the state summarises data `D`, after a batch `B` it summarises `D ++ B` with count `len(D) + len(B)` |
| Networks.SummaryDetermines | src/imitation/util/networks.py:116-127 | a summary with a positive count pins the mean to `Mean(D)` and the variance to `PopVar(D)` |
| Networks.MomentsSummarize | src/imitation/util/networks.py:116-117 | the batch mean and biased variance summarise the batch |
| Networks.RunningUpdateValid | src/imitation/util/networks.py:116-129 | the Chan update keeps the per-feature invariant, including a non-negative variance |
| Networks.FirstWeightsSum | src/imitation/util/networks.py:173-181 | the first-update weights (uniform `1/b`, or `decay^(b-1)` then `alpha·decay^k`) sum to 1 |
| Networks.LaterWeightsSum | src/imitation/util/networks.py:189-194 | running weight plus the scaled batch weights sum to 1, in both weighting modes |
| Networks.ExtendedWeightsOk | src/imitation/util/networks.py:189-194 | re-weighting the old samples and appending the batch weights keeps the weights non-negative and summing to 1 |
| Networks.EmaFirstMoments | src/imitation/util/networks.py:178-187 | the first update gives the weighted mean and the weighted mean of squares less the squared mean |
| Networks.EmaFirstUniform | src/imitation/util/networks.py:176-187 | with uniform weights the first update gives the batch mean and the population variance |
| Networks.EmaLaterMoments | src/imitation/util/networks.py:196-214 | storing `E[x²]`, re-weighting and adding the batch gives the weighted mean and variance of all data under the new weights |
| Networks.EmaLaterUniformMean | src/imitation/util/networks.py:189-208 | with uniform weights, `new_mean = decay·old_mean + (1 - decay)·batch_mean` |
| Networks.EmaFirstValid | src/imitation/util/networks.py:178-187 | the first EMA update establishes the invariant on the batch |
| Networks.EmaLaterValid | src/imitation/util/networks.py:189-216 | a later EMA update keeps the invariant on the old data plus the batch |
| Networks.UpdateKeepsFeatureValid | src/imitation/util/networks.py:106-216 | either kind of update keeps the per-feature invariant |
| Networks.RunningSteps | src/imitation/util/networks.py:120-127 | the step-by-step buffer values equal the closed-form Chan update |
| Networks.ChanSteps | src/imitation/util/networks.py:120-127 | the five in-place steps compute the Chan mean and variance |
| Networks.EmaLaterSteps | src/imitation/util/networks.py:200-214 | the in-place EMA steps compute the closed-form later update |
| Networks.EmaTwoUpdatesExample | src/imitation/util/networks.py:162-216 | with `decay = 0.9`, batch `[1]` then `[3]` gives mean 1 / variance 0, then mean 1.2 / variance 0.36 |
| Networks.NormalizeCentres | src/imitation/util/networks.py:89 | normalising with a feature's own mean centres that feature: its normalised column has mean 0 |
| Networks.NormalizeSum | src/imitation/util/networks.py:89 | the sum of a normalised column is the scaled sum of the raw column less `n·mean` |
| Networks.Normalize | src/imitation/util/networks.py:89 | `(x - running_mean) / sqrt(running_var + eps)`: one output row per input row, one entry per feature; its meaning is stated by `NormalizeSum` and `NormalizeCentres` |
| Mlp.BuildMlp | src/imitation/util/networks.py:219-291 | `ValueError` exactly when `nn.Dropout` rejects `dropout_prob > 1` in the first hidden block, which comes first, or `squeeze_output` is set with `out_size != 1`; otherwise the ordered entries of the planned layers under their prefixed names |
| Mlp.Plan | src/imitation/util/networks.py:264-287 | the layers `build_mlp` registers, in order; `MlpNamesDistinct`, `MlpLinearChain` and `PlanLinears` state their properties |
| Mlp.Prefix | src/imitation/util/networks.py:259-262 | `""` without a name, else `f"{name}_"` |
| Mlp.NatToString | src/imitation/util/networks.py:274-279 | the `{i}` of the f-string: a non-empty string of decimal digits; `NatToStringInjective` shows distinct indices give distinct strings |
| Mlp.AddIntro | src/imitation/util/networks.py:264-269 | optional `flatten` then optional `normalize_input(in_size)` |
| Mlp.AddHidden | src/imitation/util/networks.py:272-279 | the hidden loop appends every block in order and leaves `prev_size` at the last hidden size, or `in_size`; it fails exactly when there is a hidden layer and `dropout_prob > 1` |
| Mlp.AddBlock | src/imitation/util/networks.py:274-279 | one iteration: `dense{i}`, then `act{i}` and `dropout{i}` when requested; `nn.Dropout` fails exactly when `dropout_prob > 1` |
| Mlp.AddBlockTail | src/imitation/util/networks.py:276-279 | `act{i}` when an activation is given, then `dropout{i}` when `dropout_prob > 0`, or `nn.Dropout`'s error exactly when `dropout_prob > 1` |
| Mlp.AddOutput | src/imitation/util/networks.py:281-287 | `dense_final(prev_size, out_size)`, then the squeeze layer or the `ValueError` |
| Mlp.MlpNamesDistinct | src/imitation/util/networks.py:257-287 | no name is inserted twice, so each insertion adds a new entry at the end of the dictionary; every name starts with `name_` (or nothing when no name is given) |
| Mlp.MlpLinearChain | src/imitation/util/networks.py:272-282 | one `Linear` per hidden size plus `dense_final`, chained from `in_size` through the hidden sizes to `out_size` |
| Mlp.PlanLinears | src/imitation/util/networks.py:264-287 | the only linear layers are those of the hidden blocks and `dense_final` |
| Mlp.HiddenLinears | src/imitation/util/networks.py:272-279 | the `i`-th hidden linear maps the previous size to `hid_sizes[i]` |
| Mlp.KeyNameInjective | src/imitation/util/networks.py:259-287 | different layer keys give different names under one prefix |
| Mlp.NatToStringInjective | src/imitation/util/networks.py:274 | the decimal rendering of the layer index is injective |
| Util.Oric | src/imitation/util/util.py:32-57 | flooring into an array and one vectorised `+= 1` at `indices[:total_shortfall]` compute `OricSpec(x)` |
| Util.FloorInto | src/imitation/util/util.py:46 | `np.floor(x)` into a fresh array: the floors of `x`, element by element |
| Util.AddOneAt | src/imitation/util/util.py:56 | `rounded[indices[:t]] += 1` for distinct indices: exactly those entries go up by one, the rest stay |
| Util.OricSpec | src/imitation/util/util.py:46-57 | the floors with one added at the first `round(sum(shortfall))` indices of the descending argsort; one integer per input |
| Util.OricL1Optimal | src/imitation/util/util.py:33-37 | no integer vector with the same sum as `oric(x)` is closer to `x` in the L1 norm |
| Util.L1Dist | src/imitation/util/util.py:36-37 | the L1 norm of the difference between the rounded and the original vector, non-negative |
| Util.ArgsortDesc | src/imitation/util/util.py:52 | `np.argsort(-shortfall)`: each index `0 .. n-1` exactly once |
| Util.Head | src/imitation/util/util.py:56 | numpy's slice `indices[:t]`, never longer than `indices` |
| Util.OricFloorOrCeil | src/imitation/util/util.py:46-56 | each output is `floor(x[i])` or `floor(x[i]) + 1` |
| Util.OricIncrementsCount | src/imitation/util/util.py:51-56 | exactly `round(sum(shortfall))` entries get one added |
| Util.OricSumPreserved | src/imitation/util/util.py:46-57 | if `sum(x)` is an integer, the integer result has the same sum |
| Util.OricLargestShortfallsFirst | src/imitation/util/util.py:52-56 | an entry that was raised had a shortfall at least that of any entry that was not |
| Util.OricIntegersFixed | src/imitation/util/util.py:46-51 | an all-integer vector is returned unchanged |
| Util.OricExample | src/imitation/util/util.py:32-57 | `oric([1.3, 2.7]) == [1, 3]` |
| Util.TotalShortfallBounds | src/imitation/util/util.py:51-56 | `0 <= total_shortfall <= len(x)`, so the slice `indices[:total_shortfall]` is a plain prefix |
| Util.ArgsortDescOrdered | src/imitation/util/util.py:52 | the argsort lists every index once, by non-increasing shortfall |
| Util.RoundHalfEven | src/imitation/util/util.py:51 | `np.round`: within 0.5 of its argument, exact on integers, a tie going to the even integer |
| Util.Shortfall | src/imitation/util/util.py:47 | the shortfall lies in `[0, 1)` and is 0 exactly on integers |
| Util.MakeSeeds | src/imitation/util/util.py:167-185 | `n` seeds for a given `n`, a single seed when omitted, each in `[0, 2^31 - 1)` |
| Util.Integers | src/imitation/util/util.py:180 | `rng.integers(low, high, size)`: `size` values in `[low, high)` |
| Util.SingleSeedIsFirstOfOne | src/imitation/util/util.py:180-183 | omitting `n` gives `seeds[0]` of a one-element draw |
| Util.SeedsPrefix | src/imitation/util/util.py:180-185 | a shorter request yields a prefix of a longer one from the same generator state |
| Util.GetFirstIterElement | src/imitation/util/util.py:325-361 | error exactly on an empty iterable; otherwise the first element and an iterable holding all elements in order, the same object for a container |
| Util.EndlessIter | src/imitation/util/util.py:201-227 | error exactly for an iterator or an empty iterable; otherwise an endless cycle over the original elements |
| Util.TakeAt | src/imitation/util/util.py:227 | the `k`-th element the chain of repeats yields is `items[k mod len(items)]` |
| Util.EndlessIterRangeTwo | src/imitation/util/util.py:204-212 | `endless_iter(range(2))` yields 0, 1, 0 |
| Util.TensorIterNorm | src/imitation/util/util.py:295-322 | error exactly when `ord == 0`; otherwise the norm of the per-chunk norms collected in order |
| Util.ChunkNorms | src/imitation/util/util.py:313-315 | one norm per chunk, in the order the chunks are yielded |
| Util.NormOfNormsIsNorm | src/imitation/util/util.py:316-322 | for a p-norm with integer `p >= 1`, the norm of the chunk norms equals the norm of the concatenated chunks |
| Util.PowerSumOfNorms | src/imitation/util/util.py:318-321 | the sum of the chunk norms' p-th powers is the sum of all entries' p-th powers |
| Util.ComputeStateEntropy | src/imitation/util/util.py:364-397 | error exactly unless `0 <= k < len(all_obs)`; otherwise, per observation, the `(k+1)`-th smallest distance to all stored states, the 500-state chunks being equivalent to one unchunked row |
| Util.CatColumnsStep | src/imitation/util/util.py:384-395 | appending the next chunk's distances extends each concatenated row by the next stored states |
| Util.CatColumns | src/imitation/util/util.py:395 | `th.cat(dists, dim=1)`: one row per observation; `CatColumnsStep` states what each chunk adds |
| Util.KthSmallest | src/imitation/util/util.py:396 | `th.kthvalue(row, k)`: an element of the row; `KthSmallestRank` states its rank |
| Util.KthSmallestRank | src/imitation/util/util.py:396 | the selected value is in the row, fewer than `k` entries are below it and at least `k` are at or below it |

## Left out

- **Other functions in `util.py`.** `make_vec_env`, `make_unique_timestamp`, `safe_to_tensor`, `safe_to_numpy` and `docstring_parameter` are environment, clock, uuid and framework-conversion plumbing.
- **Numerics.** Floating-point rounding is idealised: the model computes in exact reals. `count` is a 32-bit integer in the source; here it is unbounded.
- **The `sqrt` in `BaseNorm.forward`.** The model takes `1 / sqrt(var + eps)` as the function parameter `rsqrt`.
- **Tensor shapes.** The source reshapes a one-dimensional batch into a column in `EMANorm.update_stats`. Here batches are always row sequences.
- **Buffer replacement.** In the first `EMANorm` update and in `running_var = running_weight * (...)`, the source binds new tensors to the buffer attributes. The model writes the new values into the same arrays, so it does not capture code that kept a reference to the old tensor.
- **Networks.Normalizer.RunningUpdate: empty batch.** It requires a non-empty batch. On an empty batch torch's mean of no rows is NaN, which a real-valued model cannot represent.
  - The same requirement applies to Networks.Normalizer.UpdateStats, Networks.Normalizer.Forward and Networks.Normalizer.ForwardInMode for a `RunningNorm` in training mode.
  - An empty batch after the first update of a within-batch `EMANorm` fails in the source (`weights[0]`). The model returns that failure as `false` or `None`.
- **Networks.Normalizer.ForwardInMode: the `with` body.** It models the `with training_mode(...)` body as a single forward call. Restoring the flag after an exception raised inside an arbitrary body is not modelled.
- **torch modules.** `nn.Linear`, `nn.Dropout`, `nn.Flatten`, `SqueezeLayer` and `nn.Sequential` are reduced to the sizes and probability they are built with. The squeeze layer's runtime shape assertion is not modelled.
  - `activation` is a flag for "an activation class was given".
  - `normalize_input_layer` is a flag for "a normaliser class was given".
  - The ordered dictionary is the sequence of its entries in insertion order. `Mlp.MlpNamesDistinct` shows that no key is overwritten.
- **Util.OricL1Optimal: other norms.** The docstring promises a minimal Lp-norm of the difference for every `p >= 1`. The model proves it for `p = 1` only. The proof is an exchange argument with a single price separating raised from unraised entries; for `p > 1` the same argument needs convexity of `|d - s|^p` over the integers, which is not proved here.
- **Util.Oric: tie order.** numpy's default argsort leaves the order of equal shortfalls unspecified. The model breaks ties by index. On ties it may therefore raise a different one of the equal entries than numpy does; every property above is stated through shortfalls only.
- **Util.MakeSeeds: the generator.** The generator's output is an arbitrary stream `raw`, reduced into range by `%`. numpy's own sampling algorithm and the distribution of seeds are not modelled. A negative `n`, which numpy rejects, is excluded by the type `nat`.
- **Util.MakeSeeds: generator state.** Drawing advances the generator's state, so the next call draws different seeds. The model is a function of a fixed stream: two calls with the same `raw` give the same seeds.
- **Util.GetFirstIterElement: consumption.** Calling it on an iterator consumes that iterator's first element. Only the returned value is modelled, not the state of the iterator that was passed in.
- **Default arguments.** Dafny has none, so every argument is explicit:
  - `eps=1e-5` of `BaseNorm` and `EMANorm`;
  - `decay=0.99` and `decay_within_batch=False` of `EMANorm`;
  - `out_size=1`, `activation=nn.ReLU` and `dropout_prob=0.0` of `build_mlp`;
  - `mode=False` of `training_mode`.
  The `training` and `evaluating` partials are `Networks.Normalizer.ForwardInMode` with `mode` true and false.
- **Iterables.** An iterable is the finite sequence of elements it yields. A tag says whether it is an iterator (`iter(x) is x`). Infinite and lazily failing iterables are not modelled.
- **Util.TensorIterNorm: `th.norm`.** `th.norm` is the function parameter `norm`, applied to chunks already flattened. `Util.NormOfNormsIsNorm` covers integer orders `p >= 1` only. It takes the defining property of the p-norm as its hypothesis, and does not cover fractional orders or `inf`.
- **Util.ComputeStateEntropy: distances.** The `vector_norm` distances are the function parameter `dist` over (observation, stored state) indices.
  - The shape assertion on `obs` and `all_obs` is not modelled.
  - Neither is `no_grad`.
  - Nor are the indices that `kthvalue` also returns.
