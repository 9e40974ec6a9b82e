# Victim base class: scenario dispatch

A model of `_VictimBase`, the base class every victim backend of the sponge
poisoning framework derives from. The base class holds no model state of
its own. It fixes what runs, in what order, for clean training, poisoned
retraining, validation and sponge training, and the order depends on
`args.scenario` ("from-scratch" or "transfer"). The hooks it calls
(`initialize`, `reinitialize_last_layer`, `save_feature_representation`,
`_iterate`, …) are abstract and belong to the backends.

The model has three modules:

- `Hooks` (hooks.dfy) holds the configuration (`Args`), the hook calls as
  an `Event` datatype and the error values. A backend is a value: its
  `_iterate` result is a function of the whole history of hook calls, and
  `average_dicts` is a function of the run statistics. `IterateResults`
  lists the statistics that the `_iterate` calls of a hook sequence return.
- `Scenarios` (scenarios.dfy) gives, for each entry point, a pure `Plan`:
  the hook calls it makes and the error it raises, per scenario. Lemmas
  there state what the plans promise:
  - how many training runs happen;
  - which seed each re-initialisation uses;
  - that the caller's poison reaches every validation run;
  - that every load of the feature representation is preceded by a save.
- `VictimBase` (victim_base.dfy) contains the class `Victim`. Its `trace`
  field records every hook call, in order. Each entry point is a method
  proved to append exactly its plan to `trace` and to return what the
  backend's `_iterate` (or `average_dicts`) produced for that history.
  `Valid` is what construction establishes: the size check passed and the
  history starts with the construction's `initialize`.

## Model

| member | source | states |
|---|---|---|
| Scenarios.InitCalls | forest/victims/victim_base.py:45-52 | construction fails with the ensemble-size ValueError exactly when fewer ensemble slots than networks are requested, and then calls nothing; otherwise it makes a single `initialize` call, with `pretrain` true exactly when a pretrain dataset is configured |
| VictimBase.Victim.New | forest/victims/victim_base.py:45-52 | construction returns the ensemble-size error exactly when the check fails; otherwise it returns a fresh valid victim holding the given configuration, whose history is the construction's `initialize` call |
| VictimBase.Victim.constructor | forest/victims/victim_base.py:47-52 | a victim whose configuration passed the size check starts with exactly one `initialize(pretrain = pretrain dataset present)` in its history |
| VictimBase.Victim.DistributedControl | forest/victims/victim_base.py:61-64 | inputs, labels, poison slices and batch positions come back unchanged, and the random generator is None |
| VictimBase.Victim.SyncGradients | forest/victims/victim_base.py:66-68 | the input comes back unchanged |
| VictimBase.Victim.ResetLearningRate | forest/victims/victim_base.py:70-72 | the hook is recorded once, at the end of the history, and nothing else changes |
| VictimBase.Victim.Initialize | forest/victims/victim_base.py:76-77 | the hook is recorded once, with its seed and pretraining flag, and nothing else changes |
| VictimBase.Victim.ReinitializeLastLayer | forest/victims/victim_base.py:79-80 | the hook is recorded once, with its learning-rate factor, seed and keep-last-layer flag, and nothing else changes |
| VictimBase.Victim.Freeze | forest/victims/victim_base.py:82-83 | the hook is recorded once and nothing else changes |
| VictimBase.Victim.Activate | forest/victims/victim_base.py:85-86 | the hook is recorded once and nothing else changes |
| VictimBase.Victim.FreezeFeatureExtractor | forest/victims/victim_base.py:88-89 | the hook is recorded once and nothing else changes |
| VictimBase.Victim.ActivateFeatureExtractor | forest/victims/victim_base.py:91-92 | the hook is recorded once and nothing else changes |
| VictimBase.Victim.SaveFeatureRepresentation | forest/victims/victim_base.py:94-95 | the hook is recorded once and nothing else changes |
| VictimBase.Victim.LoadFeatureRepresentation | forest/victims/victim_base.py:97-98 | the hook is recorded once and nothing else changes |
| VictimBase.Victim.Eval | forest/victims/victim_base.py:164-166 | the hook is recorded once, with its dropout flag, and nothing else changes |
| VictimBase.Victim.Iterate | forest/victims/victim_base.py:168-170 | the training call is recorded with its kettle, poison, epoch budget and pretraining flag; it returns the backend's statistics for the history that ends with this call |
| VictimBase.Victim.Serialize | forest/victims/victim_base.py:204-205 | the hook is recorded once, with its path, and nothing else changes |
| Hooks.IterateResultsLength | forest/victims/victim_base.py:168-170 | a hook sequence yields one statistics record per `_iterate` call it contains |
| Hooks.IterateResultsAppend | forest/victims/victim_base.py:168-170 | the statistics of two consecutive hook sequences are those of the first, followed by those of the second (computed on the longer history) |
| Scenarios.TrainCalls | forest/victims/victim_base.py:102-122 | training raises "Invalid train scenario." exactly when the scenario is neither from-scratch nor transfer, and in that case calls no hook |
| Scenarios.TrainCallsShape | forest/victims/victim_base.py:102-122 | valid training trains exactly once, with no poison and the caller's epoch budget. It saves the feature representation and never loads one, and it re-initialises only from the recorded model seed. The pretraining flag is passed (true iff a pretrain dataset is set) in from-scratch only |
| Scenarios.TrainReturnsItsIterate | forest/victims/victim_base.py:102-122 | the statistics of training are those of its single `_iterate`, taken on the history up to that call (before the save in from-scratch) |
| VictimBase.Victim.Train | forest/victims/victim_base.py:102-122 | the history grows by exactly the training plan. The result is the training error when the plan fails, otherwise the statistics of the plan's one `_iterate` |
| Scenarios.RetrainCalls | forest/victims/victim_base.py:124-136 | retraining succeeds exactly for "transfer"; every other scenario raises "Invalid retrain scenario". On failure, hooks are called before the raise exactly for "from-scratch" |
| Scenarios.RetrainCallsShape | forest/victims/victim_base.py:124-136 | a successful retrain trains once, as its last call, with the caller's poison and epoch budget, and re-initialises only from the recorded seed. A failed one trains not at all |
| VictimBase.Victim.Retrain | forest/victims/victim_base.py:124-136 | the history grows by exactly the as-written retrain plan. The result is the retrain error on failure, otherwise the statistics of its one `_iterate` |
| Scenarios.RetrainFromScratchRaises | forest/victims/victim_base.py:126-134 | as written, from-scratch retraining re-initialises from the recorded seed and then raises, without training |
| Scenarios.IntendedRetrainCalls | forest/victims/victim_base.py:124-136 | the corrected dispatch succeeds exactly for a valid scenario, and an invalid one raises before any hook call |
| Scenarios.IntendedRetrainReproducesTraining | forest/victims/victim_base.py:124-136 | corrected retraining of either valid scenario trains once, as its last call, with the caller's poison. It re-initialises only from the recorded seed: from-scratch starts with `initialize(seed)`, and transfer re-heads with the same call as training |
| Scenarios.TransferRetrainReusesTrainingHead | forest/victims/victim_base.py:112-132 | under transfer, retraining repeats training's freeze and re-heading calls exactly, and that re-heading is `reinitialize_last_layer(1.0, recorded seed, keep_last_layer=True)` |
| Scenarios.ValidatePreparation | forest/victims/victim_base.py:143-152 | the preparation of a validation run does not train, and all of its re-initialisations draw a fresh random seed |
| Scenarios.ValidateRound | forest/victims/victim_base.py:142-155 | a validation run is its preparation followed by exactly one `_iterate` with the caller's poison and epoch budget, as its last call |
| Scenarios.ValidateCalls | forest/victims/victim_base.py:138-156 | validation raises "Invalid validation scenario" exactly when the scenario is invalid and at least one run is requested. An invalid scenario never calls a hook |
| Scenarios.ValidateRunsIterate | forest/victims/victim_base.py:142-155 | validation trains exactly `vruns` times, and not at all when `vruns` is not positive |
| Scenarios.ValidateRunsUseCallerPoison | forest/victims/victim_base.py:142-155 | every validation run trains with the caller's poison and epoch budget, and every re-initialisation in validation is unseeded (a fresh random seed, never the recorded one) |
| Scenarios.RepeatResults | forest/victims/victim_base.py:142-155 | `n` repeated runs yield `n` statistics records, the j-th taken on the history up to the end of run j |
| Scenarios.ValidateRunStep | forest/victims/victim_base.py:142-155 | one more validation run appends exactly that run's statistics to the collected ones |
| Scenarios.ValidateRunStats | forest/victims/victim_base.py:138-156 | valid validation collects one statistics record per run, in run order |
| VictimBase.Victim.ValidationRun | forest/victims/victim_base.py:142-155 | one loop pass appends exactly one validation round to the history and returns its statistics; for an invalid scenario it raises without calling a hook |
| VictimBase.Victim.Validate | forest/victims/victim_base.py:138-156 | the history grows by exactly the validation plan. The result is the error on failure, otherwise `average_dicts` applied to the statistics of every run, in order |
| Scenarios.SpongeTrainCalls | forest/victims/victim_base.py:158-162 | sponge training never fails. It trains once, with the sponge poison, and then saves the feature representation |
| VictimBase.Victim.SpongeTrain | forest/victims/victim_base.py:158-162 | the history grows by the sponge step and a save, and the result is the statistics of the sponge step |
| Scenarios.ErrorTexts | forest/victims/victim_base.py:48-152 | each failing plan carries the source's exact ValueError text: the ensemble-size message (lines 49-50), "Invalid train scenario." (line 121), "Invalid retrain scenario" (line 134) and "Invalid validation scenario" (line 152) |
| Scenarios.TransferRetrainNeedsSave | forest/victims/victim_base.py:113-130 | appending a transfer retrain to a history whose loads are all backed keeps them backed, if and only if a save already occurred |
| Scenarios.TransferLifecycleBacked | forest/victims/victim_base.py:112-150 | under transfer, construction, training, retraining and validation in that order, each with its own kettle, poison and epoch budget, never load the feature representation before it has been saved |

## Left out

- `torch.backends.cudnn.benchmark` and the sharing-strategy setting (lines 12-13) are process-global torch configuration. They do not affect the dispatch.
- `FINETUNING_LR_DROP` (line 15) is defined but never read in this file. The model's entry points pass the source's literal factor `1.0` (`NoLrReduction`).
- The `print` calls, `loss_fn` and the `setup` dictionary (device, dtype) are output and tensor configuration. They have no effect on which hooks are called.
- `compute`, `_adversarial_step`, `get_leaf_nodes`, `energy_consumption` and `energy_layers_activations` are abstract in the base class. Their results are tensors and backend data, so they are not modelled.
- `_initialize_model`, `_step` and `_sponge_step` forward to model, optimizer and training-step code that is not part of this model. As written, `_initialize_model` always builds on `args.dataset` with `frozen = False`; its pretrain-dataset branch is commented out.
- The hooks never fail in the model, and the model does not flag a load with no earlier save. `TransferLifecycleBacked` proves every load is backed for construction, then train, then retrain, then validate. `TransferRetrainNeedsSave` shows a transfer retrain is backed if and only if a save came first. A transfer `validate` or `retrain` before any `train` or `sponge_train` returns `Ok` in the model, where the backend's load (lines 130, 148) would fail.
- The base declarations at lines 76, 79 and 168 accept fewer parameters than their callers pass. `initialize` is called with `pretrain=` (line 52). `reinitialize_last_layer` is called with `reduce_lr_factor=` and `keep_last_layer=` (lines 115, 132, 150). `_iterate` is called with `max_epoch=` and `pretraining_phase=` (lines 107-108, 119, 136, 155, 160). The events record what the callers pass, as a backend override must accept.
- Exceptions raised inside a backend hook are not modelled.
- `average_dicts` and the backend's `_iterate` are left uninterpreted (the `Backend` value). The model states which histories they are applied to, not what they compute.
- The kettle (dataset handle) is an opaque identifier.
- `model_init_seed` is never assigned by the base class; a backend records it when it initialises its model. The model fixes it at construction as `modelInitSeed` and so assumes the seed stays as first recorded. A backend that records a new seed on the unseeded `initialize()` or `reinitialize_last_layer(...)` of `validate` (lines 144, 150) would make a later `retrain` (lines 127, 132) read a different seed than `train` did (line 115). The "same call as training" of `TransferRetrainReusesTrainingHead` and `IntendedRetrainReproducesTraining` rests on this assumption.
- VictimBase.Victim.constructor: requires the size check to pass; the raising path of `__init__` is `Victim.New`, which returns the ValueError instead of constructing.
- The model follows the retrain code, which raises for every scenario but "transfer". The intent of the `retrain` docstring (line 125, "Check poison on the initialization it was brewed on": re-initialise from the recorded seed, then train) is modelled only as `IntendedRetrainCalls` (see Findings).
- The f-string error for the ensemble check is modelled by the reason `EnsembleTooSmall`. `Hooks.Message` gives the exact texts of all four errors, and `Scenarios.ErrorTexts` ties each plan's failure to its text. Between the two f-string fragments there is no space: "ensemble size.Increase".

## Findings

| source | as written | input that shows it | evidently intended | confidence | as-written member | corrected member |
|---|---|---|---|---|---|---|
| forest/victims/victim_base.py:126-134 | two independent `if`s: the "from-scratch" branch re-initialises from the recorded seed, and then the `else` of the "transfer" test raises "Invalid retrain scenario" | `args.scenario == "from-scratch"`: `initialize(seed=model_init_seed)` is called, and then ValueError is raised without training | `elif`: from-scratch retraining re-initialises from the recorded seed and then trains with the poison, like transfer | not executed | Scenarios.RetrainFromScratchRaises | Scenarios.IntendedRetrainReproducesTraining |

`VictimBase.Victim.Retrain` keeps the behaviour as written. `Scenarios.IntendedRetrainCalls` is the corrected dispatch, and `IntendedRetrainReproducesTraining` proves the intended property about it.
