/**
 * The victim base class: a victim whose configuration is fixed at
 * construction and whose lifecycle hooks record each call in `trace`.
 * The entry points `train`, `retrain`, `validate` and `sponge_train` call the
 * hooks in the order the scenario dictates and are proved to match the plans
 * of module Scenarios.
 */
module VictimBase {
  import opened Wrappers
  import opened Hooks
  import opened Scenarios

  /** The random-generator handle `distributed_control` hands back. */
  datatype RandomGenerator = RandomGenerator(seed: int)

  class Victim {
    const args: Args
    const backend: Backend
    /** The seed the backend recorded when it first initialised the model. */
    const modelInitSeed: int
    /** Every hook call received so far, oldest first. */
    var trace: seq<Event>

    /** A constructed victim: its configuration passed the size check and its history starts with the construction. */
    ghost predicate Valid()
      reads this
    {
      && EnsembleFits(args)
      && |trace| >= 1
      && trace[0] == Event.Initialize(None, Some(args.pretrainDataset.Some?))
    }

    /** `__init__` past its size check: one `initialize`, pretraining iff a pretrain dataset is configured. */
    constructor (args: Args, backend: Backend, modelInitSeed: int)
      requires EnsembleFits(args)
      ensures this.args == args && this.backend == backend && this.modelInitSeed == modelInitSeed
      ensures trace == InitCalls(args).calls
      ensures Valid()
    {
      this.args := args;
      this.backend := backend;
      this.modelInitSeed := modelInitSeed;
      trace := [];
      new;
      Initialize(None, Some(args.pretrainDataset.Some?));
    }

    /** `__init__` with its size check: a ValueError when the ensemble cannot hold every model. */
    static method New(args: Args, backend: Backend, modelInitSeed: int) returns (r: Result<Victim, Error>)
      ensures r.Err? <==> InitCalls(args).failure.Some?
      ensures r.Err? ==> r.error == InitCalls(args).failure.value
      ensures r.Ok? ==> && fresh(r.value) && r.value.Valid()
                        && r.value.args == args && r.value.backend == backend
                        && r.value.modelInitSeed == modelInitSeed
                        && r.value.trace == InitCalls(args).calls
    {
      if !EnsembleFits(args) {
        return Err(ValueError(EnsembleTooSmall));
      }
      var victim := new Victim(args, backend, modelInitSeed);
      return Ok(victim);
    }

    /** `distributed_control`: no redistribution in single-process training. */
    static function DistributedControl<I, L, P, B>(inputs: I, labels: L, poisonSlices: P, batchPositions: B)
      : (r: (I, L, P, B, Option<RandomGenerator>))
      ensures r.0 == inputs && r.1 == labels && r.2 == poisonSlices && r.3 == batchPositions
      ensures r.4 == None
    {
      (inputs, labels, poisonSlices, batchPositions, None)
    }

    /** `sync_gradients`: nothing to merge in single-process training. */
    static function SyncGradients<T>(input: T): (r: T)
      ensures r == input
    {
      input
    }

    // ------------------------------------------------------------ lifecycle hooks

    method Initialize(seed: Option<int>, pretrain: Option<bool>)
      modifies this
      ensures trace == old(trace) + [Event.Initialize(seed, pretrain)]
    {
      trace := trace + [Event.Initialize(seed, pretrain)];
    }

    method ReinitializeLastLayer(reduceLrFactor: real, seed: Option<int>, keepLastLayer: bool)
      modifies this
      ensures trace == old(trace) + [Event.ReinitializeLastLayer(reduceLrFactor, seed, keepLastLayer)]
    {
      trace := trace + [Event.ReinitializeLastLayer(reduceLrFactor, seed, keepLastLayer)];
    }

    method Freeze()
      modifies this
      ensures trace == old(trace) + [Event.Freeze]
    {
      trace := trace + [Event.Freeze];
    }

    method Activate()
      modifies this
      ensures trace == old(trace) + [Event.Activate]
    {
      trace := trace + [Event.Activate];
    }

    method FreezeFeatureExtractor()
      modifies this
      ensures trace == old(trace) + [Event.FreezeFeatureExtractor]
    {
      trace := trace + [Event.FreezeFeatureExtractor];
    }

    method ActivateFeatureExtractor()
      modifies this
      ensures trace == old(trace) + [Event.ActivateFeatureExtractor]
    {
      trace := trace + [Event.ActivateFeatureExtractor];
    }

    method SaveFeatureRepresentation()
      modifies this
      ensures trace == old(trace) + [Event.SaveFeatureRepresentation]
    {
      trace := trace + [Event.SaveFeatureRepresentation];
    }

    method LoadFeatureRepresentation()
      modifies this
      ensures trace == old(trace) + [Event.LoadFeatureRepresentation]
    {
      trace := trace + [Event.LoadFeatureRepresentation];
    }

    method ResetLearningRate()
      modifies this
      ensures trace == old(trace) + [Event.ResetLearningRate]
    {
      trace := trace + [Event.ResetLearningRate];
    }

    method Eval(dropout: bool)
      modifies this
      ensures trace == old(trace) + [Event.Eval(dropout)]
    {
      trace := trace + [Event.Eval(dropout)];
    }

    method Serialize(path: string)
      modifies this
      ensures trace == old(trace) + [Event.Serialize(path)]
    {
      trace := trace + [Event.Serialize(path)];
    }

    /** `_iterate`: one training loop, whose statistics the backend determines from the history. */
    method Iterate(kettle: Kettle, poisonDelta: PoisonDelta, maxEpoch: Option<int>, pretrainingPhase: Option<bool>)
      returns (stats: Stats)
      modifies this
      ensures trace == old(trace) + [Event.Iterate(kettle, poisonDelta, maxEpoch, pretrainingPhase)]
      ensures stats == backend.iterate(trace)
    {
      trace := trace + [Event.Iterate(kettle, poisonDelta, maxEpoch, pretrainingPhase)];
      stats := backend.iterate(trace);
    }

    // ------------------------------------------------------------ entry points

    /** `train`: clean (pre-)training, returning the statistics of its one `_iterate`. */
    method Train(kettle: Kettle, maxEpoch: Option<int>) returns (r: Result<Stats, Error>)
      modifies this
      ensures var p := TrainCalls(args.scenario, args.pretrainDataset.Some?, modelInitSeed, kettle, maxEpoch);
              && trace == old(trace) + p.calls
              && (p.failure.Some? ==> r == Err(p.failure.value))
              && (p.failure.None? ==> r.Ok? && IterateResults(old(trace), p.calls, backend.iterate) == [r.value])
    {
      ghost var p := TrainCalls(args.scenario, args.pretrainDataset.Some?, modelInitSeed, kettle, maxEpoch);
      var stats;
      if args.scenario == FromScratch {
        stats := Iterate(kettle, NoDelta, maxEpoch, Some(args.pretrainDataset.Some?));
        SaveFeatureRepresentation();
        assert trace == old(trace) + p.calls;
      } else if args.scenario == Transfer {
        SaveFeatureRepresentation();
        FreezeFeatureExtractor();
        ReinitializeLastLayer(NoLrReduction, Some(modelInitSeed), true);
        stats := Iterate(kettle, NoDelta, maxEpoch, None);
        assert trace == old(trace) + p.calls;
      } else {
        return Err(ValueError(InvalidTrainScenario));
      }
      TrainReturnsItsIterate(old(trace), args.scenario, args.pretrainDataset.Some?, modelInitSeed, kettle, maxEpoch, backend.iterate);
      return Ok(stats);
    }

    /**
     * `retrain` as written: "from-scratch" re-initialises from the recorded seed
     * and then raises; only "transfer" trains with the poison.
     */
    method Retrain(kettle: Kettle, poisonDelta: PoisonDelta, maxEpoch: Option<int>) returns (r: Result<Stats, Error>)
      modifies this
      ensures var p := RetrainCalls(args.scenario, modelInitSeed, kettle, poisonDelta, maxEpoch);
              && trace == old(trace) + p.calls
              && (p.failure.Some? ==> r == Err(p.failure.value))
              && (p.failure.None? ==> r.Ok? && IterateResults(old(trace), p.calls, backend.iterate) == [r.value])
    {
      if args.scenario == FromScratch {
        Initialize(Some(modelInitSeed), None);
      }
      if args.scenario == Transfer {
        LoadFeatureRepresentation();
        FreezeFeatureExtractor();
        ReinitializeLastLayer(NoLrReduction, Some(modelInitSeed), true);
      } else {
        return Err(ValueError(InvalidRetrainScenario));
      }
      var stats := Iterate(kettle, poisonDelta, maxEpoch, None);
      ghost var prep := [Event.LoadFeatureRepresentation, Event.FreezeFeatureExtractor,
                         Event.ReinitializeLastLayer(NoLrReduction, Some(modelInitSeed), true)];
      ghost var step := Event.Iterate(kettle, poisonDelta, maxEpoch, None);
      SingleIterateResult(old(trace), prep, step, [], backend.iterate);
      assert prep + [step] + [] == prep + [step];
      assert trace == old(trace) + prep + [step];
      assert RetrainCalls(args.scenario, modelInitSeed, kettle, poisonDelta, maxEpoch).calls == prep + [step];
      return Ok(stats);
    }

    /**
     * One pass of the `validate` loop: a fresh initialisation (from-scratch) or
     * a reload, freeze and unseeded re-heading (transfer), then `_iterate` with
     * the caller's poison; any other scenario raises before any hook call.
     */
    method ValidationRun(kettle: Kettle, poisonDelta: PoisonDelta, valMaxEpoch: Option<int>) returns (r: Result<Stats, Error>)
      modifies this
      ensures ValidScenario(args.scenario) ==>
                && trace == old(trace) + ValidateRound(args.scenario, kettle, poisonDelta, valMaxEpoch)
                && r == Ok(backend.iterate(trace))
      ensures !ValidScenario(args.scenario) ==> trace == old(trace) && r == Err(ValueError(InvalidValidationScenario))
    {
      if args.scenario == FromScratch {
        Initialize(None, None);
      } else if args.scenario == Transfer {
        LoadFeatureRepresentation();
        FreezeFeatureExtractor();
        ReinitializeLastLayer(NoLrReduction, None, true);
      } else {
        return Err(ValueError(InvalidValidationScenario));
      }
      var stats := Iterate(kettle, poisonDelta, valMaxEpoch, None);
      return Ok(stats);
    }

    /**
     * `validate`: `vruns` fresh runs, each re-initialised (from-scratch) or
     * re-headed (transfer) and trained with the caller's poison; returns
     * `average_dicts` of the run statistics in run order.
     */
    method Validate(kettle: Kettle, poisonDelta: PoisonDelta, valMaxEpoch: Option<int>) returns (r: Result<Stats, Error>)
      modifies this
      ensures var p := ValidateCalls(args.scenario, args.vruns, kettle, poisonDelta, valMaxEpoch);
              && trace == old(trace) + p.calls
              && (p.failure.Some? ==> r == Err(p.failure.value))
              && (p.failure.None? ==> r == Ok(backend.averageDicts(IterateResults(old(trace), p.calls, backend.iterate))))
    {
      var runStats: seq<Stats> := [];
      var runs := Runs(args.vruns);
      ghost var valid := ValidScenario(args.scenario);
      ghost var round := if valid then ValidateRound(args.scenario, kettle, poisonDelta, valMaxEpoch) else [];
      var i := 0;
      while i < runs
        invariant 0 <= i <= runs
        invariant valid ==> trace == old(trace) + Repeat(round, i)
        invariant valid ==> runStats == IterateResults(old(trace), Repeat(round, i), backend.iterate)
        invariant !valid ==> i == 0 && trace == old(trace) && runStats == []
      {
        var run := ValidationRun(kettle, poisonDelta, valMaxEpoch);
        if run.Err? {
          return Err(run.error);
        }
        ValidateRunStep(old(trace), args.scenario, kettle, poisonDelta, valMaxEpoch, i, backend.iterate);
        runStats := runStats + [run.value];
        i := i + 1;
      }
      return Ok(backend.averageDicts(runStats));
    }

    /** `sponge_train`: the sponge step (no scenario check), then a save; returns the step's statistics. */
    method SpongeTrain(kettle: Kettle, maxEpoch: Option<int>) returns (r: Result<Stats, Error>)
      modifies this
      ensures var p := SpongeTrainCalls(kettle, maxEpoch);
              && trace == old(trace) + p.calls
              && r.Ok? && IterateResults(old(trace), p.calls, backend.iterate) == [r.value]
    {
      var stats := Iterate(kettle, Sponge, maxEpoch, None);
      SaveFeatureRepresentation();
      ghost var step := Event.Iterate(kettle, Sponge, maxEpoch, None);
      SingleIterateResult(old(trace), [], step, [Event.SaveFeatureRepresentation], backend.iterate);
      assert [] + [step] + [Event.SaveFeatureRepresentation] == [step, Event.SaveFeatureRepresentation];
      assert old(trace) + [] + [step] == old(trace) + [step];
      return Ok(stats);
    }
  }
}
